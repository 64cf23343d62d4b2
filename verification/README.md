# Panasonic Eolia climate entity — a Dafny model

This project models the core of the `panasonic_eolia` integration. The integration exposes Panasonic Eolia air conditioners, reached through the vendor's cloud session (`panasoniceolia.Session`), as climate entities of Home Assistant. The model covers five things:

- the mode table `OPERATION_LIST` and its lookup in both directions (`Modes`);
- the vendor enumerations, indexed by name (`Vendor`);
- the cloud session as a scripted oracle that records every call (`Cloud`);
- the re-login-and-retry policy of `api_call_login` and of `update` (`Retry`);
- the request each `set_*` command builds (`Commands`), and the entity itself (`Climate.PanasonicEoliaDevice`).

The entity is a class. Its fields are the entity's attributes. `update` overwrites seven of them in place and keeps the others (`_current_temp`, `_mode`, `_eco`, `_airswing_hor`). Its `set_*` methods call the shared session under the retry policy.

An exception is modelled as `ok == false` on the method that would raise. The session is a class with two fields:

- `replies`: the answers to the coming calls, in order. A session with no reply left raises.
- `trace`: the calls made so far.

The policy's postconditions count the calls to `login` and to the operation in that trace.

Behaviour of the code worth noting:

- An unknown fan, swing or mode label triggers one `login()` and, if `login()` returns, a second attempt, which raises again. The lookup runs inside the wrapped `set_*` body, so its exception is handled like a failed cloud call (`Retry.LocalFailureStillLogsIn`).
- `set_swing_mode("Auto")` indexes `AirSwingUD["Auto"]` as well as the auto-swing enumeration. It raises when `Auto` is not a vertical swing position.
- `update` applies the 126 sentinel to three temperatures: target, inside and outside. It overwrites seven fields and keeps `_eco`, `_airswing_hor`, `_current_temp` and `_mode` as they were.

## Model

| member | source | states |
|---|---|---|
| `Vendor.Lookup` | custom_components/panasonic_eolia/climate.py:231 | Indexing an enumeration by name yields a member exactly when a member has that name, and the member it yields is in the enumeration and carries that name; otherwise it is the key-error case. |
| `Vendor.Names` | custom_components/panasonic_eolia/climate.py:186-188 | The list of member names has one entry per member, in order, and holds exactly the names some member carries. |
| `Cloud.Session.Perform` | custom_components/panasonic_eolia/climate.py:102 | A call on the session is appended to the trace and answered by the next scripted reply; an exhausted script raises. |
| `Modes.Label` | custom_components/panasonic_eolia/climate.py:26-33 | `OPERATION_LIST[m]` is defined for every host mode except `auto`, and its value is one of the six vendor labels. |
| `Modes.OperationListDistinct` | custom_components/panasonic_eolia/climate.py:26-33 | The table has six entries, with pairwise distinct host modes and pairwise distinct vendor labels. |
| `Modes.HvacModes` | custom_components/panasonic_eolia/climate.py:175-178 | `hvac_modes` lists the six modes of the table in its order. They are distinct, and they are exactly the modes with a table entry. |
| `Modes.ModeOfDefined` | custom_components/panasonic_eolia/climate.py:165-173 | The reverse lookup finds a mode exactly for the six labels of the table. For any other label it gives no mode and does not fail. |
| `Modes.ModeOfIsInverse` | custom_components/panasonic_eolia/climate.py:165-167 | The reverse lookup of a label gives `m` if and only if `m`'s table entry carries that label. |
| `Modes.LabelRoundTrip` | custom_components/panasonic_eolia/climate.py:26-33 | Decoding the label of any mode in the table gives back that mode. |
| `Modes.ModeOfRoundTrip` | custom_components/panasonic_eolia/climate.py:165-167 | Encoding the decoded mode of any label in the table gives back that label. |
| `Modes.LabelInjective` | custom_components/panasonic_eolia/climate.py:26-33 | Two modes of the table with the same label are the same mode, so the reverse lookup is unique. |
| `Modes.ModeOf` | custom_components/panasonic_eolia/climate.py:165-173 | The reverse lookup gives no mode exactly for a label outside the table. Any mode it gives has that label as its table entry. |
| `Modes.EffectiveMode` | custom_components/panasonic_eolia/climate.py:160-163 | While the device is powered off, the reported mode is `off`, whatever label is stored. |
| `Modes.EffectiveModeWhenOn` | custom_components/panasonic_eolia/climate.py:165-173 | While the device is powered on, the reported mode is `m` exactly when the stored label is `m`'s. It is unknown (`None`) exactly when the label is outside the table. |
| `Retry.Attempt` | custom_components/panasonic_eolia/climate.py:45-46 | One run of the operation makes no call (and returns, or raises locally) or makes its one call and raises exactly when that call raised. |
| `Retry.WithRelogin` | custom_components/panasonic_eolia/climate.py:43-50 | A first attempt that returns is the whole effect. Otherwise the calls are the first attempt's, then `login`. If `login` raised, that exception escapes after one attempt. If not, the second attempt's calls follow, and an exception escapes exactly when the second attempt raised. |
| `Retry.RetryBounds` | custom_components/panasonic_eolia/climate.py:43-50 | The operation runs once or twice, and twice only after a login. `login()` is called at most once, and exactly when the first attempt raised. The operation's own call is made at most twice. |
| `Retry.FirstSuccessIsFinal` | custom_components/panasonic_eolia/climate.py:45-46 | When the first attempt succeeds, the wrapper's effect is that attempt alone: no login and no second attempt. |
| `Retry.RaisedIff` | custom_components/panasonic_eolia/climate.py:43-50 | An exception escapes exactly when the first attempt raised and then `login()` or the second attempt raised. |
| `Retry.FailOnceThenSucceed` | custom_components/panasonic_eolia/climate.py:101-107 | A call that fails once and then succeeds makes the calls operation, `login`, operation, in that order. The wrapper returns normally with the second call's data. |
| `Retry.FailTwice` | custom_components/panasonic_eolia/climate.py:43-50 | A call that fails twice makes the calls operation, `login`, operation, with exactly one login, and the second exception escapes. |
| `Retry.LocalFailureStillLogsIn` | custom_components/panasonic_eolia/climate.py:43-50 | An operation that raises before reaching the cloud (an unknown label) still causes one `login()` and, if `login()` returns, a second run, and then raises. |
| `Retry.AttemptOnce` | custom_components/panasonic_eolia/climate.py:46 | Running the operation once on the shared session changes its trace and replies as `Attempt` says. |
| `Retry.CallWithRelogin` | custom_components/panasonic_eolia/climate.py:43-50 | The decorator on the shared session: its calls, the replies it consumes, and whether an exception escapes are those of the policy `WithRelogin`. |
| `Commands.SetTemperature` | custom_components/panasonic_eolia/climate.py:210-222 | Without a temperature argument, no call is made. Otherwise exactly one `set_device` call is made for this device, carrying only `temperature`, with the value passed. It never raises locally. |
| `Commands.SetFanMode` | custom_components/panasonic_eolia/climate.py:224-232 | A call is made exactly when the label names a fan speed. It carries only `fanSpeed`, set to the member with that name. Otherwise it raises. |
| `Commands.SetHvacMode` | custom_components/panasonic_eolia/climate.py:234-249 | `off` sends only `power` = `Off` and never a `mode`. Any other mode sends `power` = `On` and `mode` = the operation mode named by the table's label. It raises when the mode has no table entry or a member is missing. |
| `Commands.SetSwingMode` | custom_components/panasonic_eolia/climate.py:251-267 | A call is made exactly when the three lookups succeed. It carries exactly `power` = `On`, `airSwingVertical` = the position named by the label, and `fanAutoMode` = vertical auto swing if and only if the label is `Auto` (disabled otherwise). |
| `Climate.Refreshed` | custom_components/panasonic_eolia/climate.py:114-132 | After a refresh, each of the three temperatures is absent exactly when its own raw value is 126, and is that value otherwise. Power is on exactly when the power member's value is non-zero. Mode, fan and vertical swing are the member names. Eco, horizontal swing and the unused fields keep their values. |
| `Climate.RefreshedIdempotent` | custom_components/panasonic_eolia/climate.py:114-132 | Applying the same parameters twice leaves the entity as applying them once. |
| `Climate.RefreshedForgetsOverwritten` | custom_components/panasonic_eolia/climate.py:129-132 | The outcome of a refresh depends on the old state only through the fields it does not overwrite. |
| `Climate.InitiallyOff` | custom_components/panasonic_eolia/climate.py:82-95 | The initial mode label is the table's label for `cool`, and the initial state reports `off`. |
| `Climate.SetTemperatureNotClamped` | custom_components/panasonic_eolia/climate.py:210-222 | Any temperature, inside the advertised 16–30 range or not, is sent unchanged as the request's only field. |
| `Climate.HvacModesAccepted` | custom_components/panasonic_eolia/climate.py:175-178 | When the enumerations hold both power members and every table label other than `Off` (which is never looked up in `OperationMode`), the modes `hvac_modes` lists are exactly those `set_hvac_mode` accepts. |
| `Climate.SwingModesAccepted` | custom_components/panasonic_eolia/climate.py:195-198 | When the enumerations hold power on and both auto-swing members, the positions `swing_modes` lists are exactly those `set_swing_mode` accepts. |
| `Climate.PanasonicEoliaDevice.constructor` | custom_components/panasonic_eolia/climate.py:76-95 | A new entity is powered off and has mode label `Cool` and eco `Auto`. Every temperature, fan and swing field is absent. It reports `off`. |
| `Climate.PanasonicEoliaDevice.Update` | custom_components/panasonic_eolia/climate.py:99-132 | The fetch runs under the retry policy. When an exception escapes, or when no data comes back, every field is unchanged. Otherwise the new state is `Refreshed` of the old state and the parameters. |
| `Climate.PanasonicEoliaDevice.CurrentHvacMode` | custom_components/panasonic_eolia/climate.py:159-173 | The scan of the table reports `off` while powered off. Otherwise it reports the mode whose entry carries the stored label, or `None` exactly when the label is outside the table. |
| `Climate.PanasonicEoliaDevice.FanModes` | custom_components/panasonic_eolia/climate.py:185-188 | `fan_modes` lists the fan speed names in order, and they are exactly the labels `set_fan_mode` accepts. |
| `Climate.PanasonicEoliaDevice.SwingModes` | custom_components/panasonic_eolia/climate.py:195-198 | `swing_modes` lists the vertical swing position names in order, exactly those the enumeration can be indexed by. |
| `Climate.PanasonicEoliaDevice.SetTemperature` | custom_components/panasonic_eolia/climate.py:210-222 | `set_temperature` on the session is the retry policy applied to the request `Commands.SetTemperature` builds. |
| `Climate.PanasonicEoliaDevice.SetFanMode` | custom_components/panasonic_eolia/climate.py:224-232 | `set_fan_mode` on the session is the retry policy applied to the request `Commands.SetFanMode` builds. |
| `Climate.PanasonicEoliaDevice.SetHvacMode` | custom_components/panasonic_eolia/climate.py:234-249 | `set_hvac_mode` on the session is the retry policy applied to the request `Commands.SetHvacMode` builds. |
| `Climate.PanasonicEoliaDevice.SetSwingMode` | custom_components/panasonic_eolia/climate.py:251-267 | `set_swing_mode` on the session is the retry policy applied to the request `Commands.SetSwingMode` builds. |

## Left out

- `setup_platform`: creating the session, the network login, listing the devices and registering the entities are I/O and host plumbing.
- `PLATFORM_SCHEMA` and `SCAN_INTERVAL`: configuration validation and the host's polling interval.
- The SDK's transport, its authentication and the concrete members of its enumerations. The enumerations are a parameter (`Vendor.Constants`). `login`, `get_device` and `set_device` are answered from a script of replies.
- The Home Assistant base class and the trivial properties: `supported_features`, `name`, `group`, `temperature_unit`, the unit field and the `_enable_turn_on_off_backwards_compatibility` flag. The getters `target_temperature`, `fan_mode`, `swing_mode`, `current_temperature` and `outside_temperature` return a field unchanged, and are the class's fields themselves.
- `min_temp`, `max_temp` and `target_temp_step` are the constants `MinTemp`, `MaxTemp` and `TargetTempStep`. Nothing in the code enforces them (see `SetTemperatureNotClamped`).
- Logging, including the surplus argument of the debug call in `set_swing_mode`.
- Concurrency around the shared session: calls are taken to arrive one at a time.
- A `get_device` reply whose parameters lack a key. That raises a key error after part of the fields has been written. The model's `Parameters` always carry every key.
- Vendor enumerations are taken to have integer values and no aliases. `bool(power.value)` is modelled as "value is non-zero", which holds only for numeric values. Python skips an alias when iterating an enumeration, but indexing by the alias's name returns the canonical member under another name. With aliases, `fan_modes` and `swing_modes` would leave out names that indexing accepts, and `Vendor.Lookup` would not return a member carrying the name asked for.
- Temperatures are `real`: the code only compares them with 126 and copies them, so floating-point rounding plays no part.
- An exception is only `ok == false`. Its type is not modelled, so the model does not distinguish an authentication error from a network error or a key error, and neither does the code.
- `Commands.SetTemperature`: a keyword argument passed explicitly as `None` is modelled as `None` in the map, which behaves like an absent key, as `kwargs.get` does.
- `Climate.PanasonicEoliaDevice.Update`: the code has its own inline copy of the retry policy. The model runs it through the shared `Retry.CallWithRelogin`, which makes the same calls in the same order.
