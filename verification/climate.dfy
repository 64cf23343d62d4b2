/**
 * `PanasonicEoliaDevice`: one air conditioner of the account, as a climate
 * entity. It keeps the last state read from the cloud in its fields, refreshes
 * them in `Update`, reports its mode and its selectable modes, and turns the
 * host's commands into `set_device` calls under the re-login-and-retry policy.
 */
module Climate {
  import opened Wrappers
  import opened Vendor
  import opened Cloud
  import opened Modes
  import opened Retry
  import Commands

  /** The advertised target-temperature range and step; nothing enforces them locally. */
  const MinTemp: int := 16
  const MaxTemp: int := 30
  const TargetTempStep: real := 0.5

  /** The raw temperature with which the cloud says that a reading is absent. */
  const Sentinel: real := 126.0

  /** The device as listed by the session: its identifier and display name. */
  datatype DeviceHandle = DeviceHandle(id: string, name: string)

  /** The state an entity keeps, field by field. */
  datatype Snapshot = Snapshot(
    currentTemp: Option<real>,
    isOn: bool,
    hvacMode: string,
    targetTemp: Option<real>,
    curTemp: Option<real>,
    outsideTemp: Option<real>,
    mode: Option<string>,
    eco: string,
    currentFan: Option<string>,
    airswingHor: Option<string>,
    airswingVert: Option<string>)

  /** A raw temperature as the entity stores it: absent for the sentinel, the raw value otherwise. */
  function Normalize(raw: real): Option<real>
  {
    if raw != Sentinel then Some(raw) else None
  }

  /**
   * The state after a refresh that received parameters `p`: the three
   * temperatures by the sentinel rule, each from its own raw value; power on
   * exactly when the power member's value is non-zero; mode, fan speed and
   * vertical swing by their member names; every other field as it was.
   */
  function Refreshed(s: Snapshot, p: Parameters): (r: Snapshot)
    ensures r.targetTemp == None <==> p.temperature == Sentinel
    ensures r.curTemp == None <==> p.temperatureInside == Sentinel
    ensures r.outsideTemp == None <==> p.temperatureOutside == Sentinel
    ensures r.targetTemp.Some? ==> r.targetTemp.value == p.temperature
    ensures r.curTemp.Some? ==> r.curTemp.value == p.temperatureInside
    ensures r.outsideTemp.Some? ==> r.outsideTemp.value == p.temperatureOutside
    ensures r.isOn <==> p.power.value != 0
    ensures r.hvacMode == p.mode.name
    ensures r.currentFan == Some(p.fanSpeed.name)
    ensures r.airswingVert == Some(p.airSwingVertical.name)
    ensures r.currentTemp == s.currentTemp && r.mode == s.mode && r.eco == s.eco && r.airswingHor == s.airswingHor
  {
    s.(targetTemp := Normalize(p.temperature),
       curTemp := Normalize(p.temperatureInside),
       outsideTemp := Normalize(p.temperatureOutside),
       isOn := p.power.value != 0,
       hvacMode := p.mode.name,
       currentFan := Some(p.fanSpeed.name),
       airswingVert := Some(p.airSwingVertical.name))
  }

  /** Refreshing twice with the same parameters is refreshing once. */
  lemma RefreshedIdempotent(s: Snapshot, p: Parameters)
    ensures Refreshed(Refreshed(s, p), p) == Refreshed(s, p)
  {
  }

  /** What a refresh overwrites does not depend on the state before it: two states that agree on the fields it keeps end up equal. */
  lemma RefreshedForgetsOverwritten(s1: Snapshot, s2: Snapshot, p: Parameters)
    requires s1.currentTemp == s2.currentTemp && s1.mode == s2.mode
    requires s1.eco == s2.eco && s1.airswingHor == s2.airswingHor
    ensures Refreshed(s1, p) == Refreshed(s2, p)
  {
  }

  /** The state of a freshly constructed entity. */
  const InitialSnapshot := Snapshot(None, false, "Cool", None, None, None, None, "Auto", None, None, None)

  /** A fresh entity, whose stored label is `Cool`'s, reports `Off` until its first refresh. */
  lemma InitiallyOff()
    ensures Label(Cool) == Some(InitialSnapshot.hvacMode)
    ensures EffectiveMode(InitialSnapshot.isOn, InitialSnapshot.hvacMode) == Some(Off)
  {
  }

  /** `set_temperature` sends the temperature it is given unchanged, inside the advertised range or not. */
  lemma SetTemperatureNotClamped(id: string, t: real)
    ensures var r := Commands.SetTemperature(id, map[Commands.AttrTemperature := Some(t)]);
      && r.Send?
      && r.call.request.temperature == Some(t)
      && Fields(r.call.request) == {"temperature"}
  {
  }

  /**
   * Every mode `hvac_modes` lists is accepted by `set_hvac_mode`, and no other,
   * when the vendor enumerations carry both power members and every label of
   * the table other than `Off`, which `set_hvac_mode` never looks up.
   */
  lemma HvacModesAccepted(id: string, k: Constants, m: HvacMode)
    requires HasName(k.power, "On") && HasName(k.power, "Off")
    requires forall name :: name in Labels - {"Off"} ==> HasName(k.operationMode, name)
    ensures m in HvacModes() <==> Commands.SetHvacMode(id, k, m).Send?
  {
  }

  /**
   * Every position `swing_modes` lists is accepted by `set_swing_mode`, and no
   * other, when the vendor enumerations carry power on and both auto-swing
   * members.
   */
  lemma SwingModesAccepted(id: string, k: Constants, name: string)
    requires HasName(k.power, "On")
    requires HasName(k.airSwingAutoMode, "AirSwingUD") && HasName(k.airSwingAutoMode, "Disabled")
    ensures name in Names(k.airSwingUD) <==> Commands.SetSwingMode(id, k, name).Send?
  {
    if name == "Auto" {
      assert Commands.AutoModeName(name) == "AirSwingUD";
    } else {
      assert Commands.AutoModeName(name) == "Disabled";
    }
  }

  class PanasonicEoliaDevice {
    /** The shared session of the account. */
    const api: Session
    const device: DeviceHandle
    const constants: Constants

    var currentTemp: Option<real>
    var isOn: bool
    /** The vendor label of the operation mode. */
    var hvacMode: string
    var targetTemp: Option<real>
    var curTemp: Option<real>
    var outsideTemp: Option<real>
    var mode: Option<string>
    var eco: string
    var currentFan: Option<string>
    var airswingHor: Option<string>
    var airswingVert: Option<string>

    /** The entity's fields as one value. */
    function State(): Snapshot
      reads this
    {
      Snapshot(currentTemp, isOn, hvacMode, targetTemp, curTemp, outsideTemp,
               mode, eco, currentFan, airswingHor, airswingVert)
    }

    /** A new entity: powered off, mode label `Cool`, eco `Auto`, every reading, fan and swing absent. */
    constructor (device: DeviceHandle, api: Session, constants: Constants)
      ensures this.device == device && this.api == api && this.constants == constants
      ensures State() == InitialSnapshot
      ensures EffectiveMode(isOn, hvacMode) == Some(Off)
    {
      this.api := api;
      this.device := device;
      this.constants := constants;
      currentTemp := None;
      isOn := false;
      hvacMode := Label(Cool).value;
      targetTemp := None;
      curTemp := None;
      outsideTemp := None;
      mode := None;
      eco := "Auto";
      currentFan := None;
      airswingHor := None;
      airswingVert := None;
    }

    /**
     * `update`: fetch the device's parameters under the retry policy. `ok` is
     * false when the exception of the retried fetch (or of `login()`) escapes;
     * the fields change only when the fetch returned data, and then as
     * `Refreshed` says.
     */
    method Update() returns (ok: bool)
      modifies this, api
      ensures var r := WithRelogin(Send(GetDevice(device.id)), old(api.replies));
        && api.trace == old(api.trace) + r.calls
        && api.replies == r.rest
        && ok == !r.raised
        && State() == (if r.data.None? then old(State()) else Refreshed(old(State()), r.data.value))
    {
      var data;
      ok, data := CallWithRelogin(api, Send(GetDevice(device.id)));
      if !ok || data.None? {
        return;
      }
      var p := data.value;

      if p.temperature != Sentinel {
        targetTemp := Some(p.temperature);
      } else {
        targetTemp := None;
      }

      if p.temperatureInside != Sentinel {
        curTemp := Some(p.temperatureInside);
      } else {
        curTemp := None;
      }

      if p.temperatureOutside != Sentinel {
        outsideTemp := Some(p.temperatureOutside);
      } else {
        outsideTemp := None;
      }

      isOn := p.power.value != 0;
      hvacMode := p.mode.name;
      currentFan := Some(p.fanSpeed.name);
      airswingVert := Some(p.airSwingVertical.name);
    }

    /**
     * `hvac_mode`: `Off` while powered off; otherwise the mode whose table
     * entry carries the stored label, found by a scan of the table, or `None`
     * for a label outside it.
     */
    method CurrentHvacMode() returns (r: Option<HvacMode>)
      ensures r == EffectiveMode(isOn, hvacMode)
      ensures !isOn ==> r == Some(Off)
      ensures isOn ==> forall m :: r == Some(m) <==> Label(m) == Some(hvacMode)
      ensures isOn ==> (r == None <==> hvacMode !in Labels)
    {
      if !isOn {
        return Some(Off);
      }
      EffectiveModeWhenOn(hvacMode);
      for i := 0 to |OperationList|
        invariant ModeFrom(hvacMode, i) == ModeOf(hvacMode)
      {
        if OperationList[i].1 == hvacMode {
          return Some(OperationList[i].0);
        }
      }
      return None;
    }

    /** `fan_modes`: the names of the fan speeds, exactly the names `set_fan_mode` accepts. */
    function FanModes(): (r: seq<string>)
      ensures |r| == |constants.fanSpeed|
      ensures forall i :: 0 <= i < |r| ==> r[i] == constants.fanSpeed[i].name
      ensures forall name :: name in r <==> Commands.SetFanMode(device.id, constants, name).Send?
    {
      Names(constants.fanSpeed)
    }

    /** `swing_modes`: the names of the vertical swing positions. */
    function SwingModes(): (r: seq<string>)
      ensures |r| == |constants.airSwingUD|
      ensures forall i :: 0 <= i < |r| ==> r[i] == constants.airSwingUD[i].name
      ensures forall name :: name in r <==> Lookup(constants.airSwingUD, name).Some?
    {
      Names(constants.airSwingUD)
    }

    /** `set_temperature` under the retry policy; `ok` is false when an exception escapes. */
    method SetTemperature(kwargs: map<string, Option<real>>) returns (ok: bool)
      modifies api
      ensures var r := WithRelogin(Commands.SetTemperature(device.id, kwargs), old(api.replies));
        && api.trace == old(api.trace) + r.calls
        && api.replies == r.rest
        && ok == !r.raised
    {
      var discarded;
      ok, discarded := CallWithRelogin(api, Commands.SetTemperature(device.id, kwargs));
    }

    /** `set_fan_mode` under the retry policy. */
    method SetFanMode(fanMode: string) returns (ok: bool)
      modifies api
      ensures var r := WithRelogin(Commands.SetFanMode(device.id, constants, fanMode), old(api.replies));
        && api.trace == old(api.trace) + r.calls
        && api.replies == r.rest
        && ok == !r.raised
    {
      var discarded;
      ok, discarded := CallWithRelogin(api, Commands.SetFanMode(device.id, constants, fanMode));
    }

    /** `set_hvac_mode` under the retry policy. */
    method SetHvacMode(m: HvacMode) returns (ok: bool)
      modifies api
      ensures var r := WithRelogin(Commands.SetHvacMode(device.id, constants, m), old(api.replies));
        && api.trace == old(api.trace) + r.calls
        && api.replies == r.rest
        && ok == !r.raised
    {
      var discarded;
      ok, discarded := CallWithRelogin(api, Commands.SetHvacMode(device.id, constants, m));
    }

    /** `set_swing_mode` under the retry policy. */
    method SetSwingMode(swingMode: string) returns (ok: bool)
      modifies api
      ensures var r := WithRelogin(Commands.SetSwingMode(device.id, constants, swingMode), old(api.replies));
        && api.trace == old(api.trace) + r.calls
        && api.replies == r.rest
        && ok == !r.raised
    {
      var discarded;
      ok, discarded := CallWithRelogin(api, Commands.SetSwingMode(device.id, constants, swingMode));
    }
  }

}
