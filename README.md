# Tuya camera accessory: capability gating and status dispatch

A Dafny model of the camera accessory of homebridge-tuya-platform
(`src/accessory/CameraAccessory.ts`). The accessory turns a Tuya camera's schema table
(the attributes the device reports, each under a vendor code) into HomeKit services, and
routes the device's status batches to them:

- **Capability gating** (module `Camera`, class `CameraAccessory`): the floodlight gets a
  light service only when `floodlight_switch` exists, and brightness handlers only when
  `floodlight_lightness` exists. The motion sensor is always created, with MotionDetected
  set to false. A doorbell gets a switch-event handler only when it passes the DOORBELL
  check and has a ring or alarm-message schema. A streaming controller is created at most
  once, and never for a virtual device.
- **Doorbell selection** (module `DoorbellEvent`): a batch rings the doorbell at most once.
  It uses the first `doorbell_pic` entry when that entry's value is longer than one
  character. Failing that, it uses the first `alarm_message` entry under the same
  condition. The `'$'` heartbeat never rings.
- **Motion expiry** (module `MotionTimer` and the class): a non-empty motion payload sets
  MotionDetected and replaces the one pending expiry deadline with `now + 30000` ms. A
  tick at or after the deadline clears it. Before initialization, a motion status changes
  nothing. An empty payload also changes nothing.
- **Brightness conversion** (module `Brightness`): `onGet` rescales the device value from
  `[0, max]` to `[0, 100]`, rounds it and clamps it into `[min, max]`. `onSet` rescales
  the percentage from `[0, 100]` to `[0, max]`, rounds it and clamps it into `[min, max]`.
  Both use exact arithmetic and round halves up.

Schema lookup (`getSchema`) is modelled in module `Schema` as a lookup in priority order:
the first code in the list that the table holds wins. BaseAccessory, where `getSchema`
lives, is not part of this model.

Two points that a reader might expect to work otherwise; the model follows the code on both:

- The DOORBELL check passes when EITHER `wireless_powermode` or `doorbell_ring_exist` is
  present, because `getSchema` returns the first one found. Both are not required.
- A batch rings the doorbell at most once, not once per matching entry. Only the FIRST
  entry with each code is examined.

## Model

| member | source | states |
|---|---|---|
| `Schema.FindByCodeFound` | src/accessory/CameraAccessory.ts:83-87 | A lookup by one code finds an entry if and only if the table holds that code. |
| `Schema.FindByCodeFirst` | src/accessory/CameraAccessory.ts:83-87 | When several entries carry the code, the lookup returns the first of them. |
| `Schema.FindSchema` | src/accessory/CameraAccessory.ts:83-87 | A found entry is in the table and carries one of the listed codes. |
| `Schema.FindSchemaFound` | src/accessory/CameraAccessory.ts:83-87 | The lookup finds an entry if and only if the table holds one of the listed codes. |
| `Schema.FindSchemaFirst` | src/accessory/CameraAccessory.ts:83-87 | Caller priority: when `codes[k]` is the first listed code the table holds, the lookup returns the entry for `codes[k]`. |
| `Schema.FindSchemaConcat` | src/accessory/CameraAccessory.ts:87 | Looking up `a + b` gives the result for `a` when that is defined, and the result for `b` otherwise. |
| `Schema.FindStatus` | src/accessory/CameraAccessory.ts:129-130 | `find` returns nothing when the code is undefined. Otherwise a found entry is in the batch and carries the code. |
| `Schema.FindStatusFound` | src/accessory/CameraAccessory.ts:129-130 | `find` finds an entry if and only if some entry in the batch carries the code. |
| `Schema.FindStatusFirst` | src/accessory/CameraAccessory.ts:129-130 | When index i is the first entry with the code, `find` returns exactly that entry. |
| `Schema.FindStatusIsFirst` | src/accessory/CameraAccessory.ts:129-130 | What `find` returns is the first entry of the batch that carries the code. |
| `DoorbellEvent.SelectDoorbellEvent` | src/accessory/CameraAccessory.ts:126-136 | A selected entry is in the batch and is a string longer than one character. The device passes the DOORBELL check. The entry's code is `doorbell_pic` or `alarm_message`, and that schema exists. |
| `DoorbellEvent.SelectDoorbellEventExactly` | src/accessory/CameraAccessory.ts:126-136 | The doorbell rings if and only if the DOORBELL check passes and the first entry of an existing ring or alarm-message schema is longer than one character. |
| `DoorbellEvent.DoorbellGateEitherCode` | src/accessory/CameraAccessory.ts:128 | The DOORBELL check passes if and only if `wireless_powermode` or `doorbell_ring_exist` is present. |
| `DoorbellEvent.RingEntryWins` | src/accessory/CameraAccessory.ts:129-132 | When the ring schema exists and the first ring entry is longer than one character, that entry is the one selected, whatever alarm entries the batch holds. |
| `DoorbellEvent.AlarmOnlyWhenRingDoesNotQualify` | src/accessory/CameraAccessory.ts:131-135 | An alarm-message entry is selected only when there is no ring schema, or the first ring entry is missing or too short. |
| `DoorbellEvent.AlarmFallbackUsesFirstAlarmEntry` | src/accessory/CameraAccessory.ts:130-135 | When the ring code does not qualify and the batch's FIRST alarm-message entry is longer than one character, that entry is the one selected, whatever later ring or alarm entries the batch holds. |
| `DoorbellEvent.ShortValuesNeverRing` | src/accessory/CameraAccessory.ts:131-133 | A batch whose values are all at most one character long (or not strings) never rings, under any code. |
| `DoorbellEvent.DoorbellBindingPrefersRing` | src/accessory/CameraAccessory.ts:87-92 | `configureDoorbell` binds the ring schema when it exists, and the alarm-message schema otherwise. |
| `DoorbellEvent.RingAndAlarmInOneBatch` | src/accessory/CameraAccessory.ts:126-136 | A batch with ring entry "ab" and alarm entry "xyz" rings once, with the ring entry. |
| `Brightness.Remap` | src/accessory/CameraAccessory.ts:53 | The rescale maps inMin to outMin and inMax to outMax, and keeps the proportion in between. |
| `Brightness.RoundHalfUp` | src/accessory/CameraAccessory.ts:54 | The result is the integer nearest to x, with halves rounded up. |
| `Brightness.Limit` | src/accessory/CameraAccessory.ts:55 | With lo <= hi, the result lies in [lo, hi]. Values below lo give lo, values above hi give hi, and values in range are unchanged. |
| `Brightness.PercentFromDevice` | src/accessory/CameraAccessory.ts:50-57 | The `onGet` result always lies in the device range [min, max], and device value 0 reads as 0. |
| `Brightness.DeviceFromPercent` | src/accessory/CameraAccessory.ts:58-65 | The command value `onSet` sends always lies in [min, max], and 100 percent sends max. |
| `Brightness.FullBrightnessReadsAsDeviceMax` | src/accessory/CameraAccessory.ts:53-55 | As written, on a device with max below 100, full brightness is sent as max and read back as max percent instead of 100. |
| `Brightness.RoundTripAsWrittenFails` | src/accessory/CameraAccessory.ts:50-65 | As written, on range [0, 50], 100 percent is sent as 50 and read back as 50 percent. |
| `Brightness.LowestReadsAsDeviceMin` | src/accessory/CameraAccessory.ts:53-55 | As written, on range [25, 255] the device minimum 25 reads as 25 percent. The corrected handler reads it as 10 percent. |
| `Brightness.PercentFromDeviceCorrected` | src/accessory/CameraAccessory.ts:55 | With the clamp into [0, 100], the reading is a percentage, and the device maximum reads as 100. |
| `Brightness.ReadBackError` | src/accessory/CameraAccessory.ts:53-62 | Reading back a rounded device value lands within one of the percentage set when max >= 50, and within one half when max > 100. |
| `Brightness.RoundTripCorrected` | src/accessory/CameraAccessory.ts:50-65 | Setting p and reading it back with the corrected handler gives p within one when max >= 50, and exactly p when max >= 100, unless the command was raised to min. |
| `MotionTimer.OnMotion` | src/accessory/CameraAccessory.ts:146-162 | Before initialization, or with an empty payload, the state is unchanged. Otherwise motion is detected and the single deadline is now + 30000. |
| `MotionTimer.Expire` | src/accessory/CameraAccessory.ts:161 | A deadline that has passed fires: motion clears and no timer remains. Otherwise nothing changes. |
| `MotionTimer.RunTracksLastMotion` | src/accessory/CameraAccessory.ts:158-161 | After any inputs, motion is detected if and only if a deadline is pending. That holds if and only if the last non-empty motion is less than 30 s old at every later tick. The deadline is that LAST motion's time + 30000. |
| `MotionTimer.RetriggerMovesExpiry` | src/accessory/CameraAccessory.ts:160-161 | Motion at 0 s and again at 10 s is still detected at 30 s and cleared at 40 s. |
| `Camera.MotionStatusEntry` | src/accessory/CameraAccessory.ts:138-142 | A motion entry is routed if and only if the `movement_detect_pic` schema exists and the batch carries that code. The routed entry is in the batch and carries that code. |
| `Camera.MotionStatusEntryIsFirst` | src/accessory/CameraAccessory.ts:138-142 | With the motion-detect schema present, the routed entry is the FIRST entry of the batch with that code, as `find` returns. |
| `Camera.MotionOutcomeOf` | src/accessory/CameraAccessory.ts:146-154 | Motion starts if and only if the accessory is initialized, the value is a string and its decoded payload is non-empty. The status is dropped as not initialized if and only if the accessory is not initialized. |
| `Camera.SetupServices` | src/accessory/CameraAccessory.ts:29-34 | Setup always adds the motion sensor. It adds the light service if and only if `floodlight_switch` exists. It adds the doorbell service if and only if the DOORBELL check passes and a ring or alarm schema exists. It adds one switch, subtype `motion_switch`, if and only if that schema exists. |
| `Camera.SetupBindsAddedServices` | src/accessory/CameraAccessory.ts:29-34 | Every handler setup binds is for an entry of the schema table and sits on a service setup adds. Switch events go only to the doorbell. |
| `Camera.CameraAccessory.constructor` | src/accessory/CameraAccessory.ts:21-23 | A fresh accessory has no services, no stream, no pending timer, and is not initialized. |
| `Camera.CameraAccessory.ConfigureServices` | src/accessory/CameraAccessory.ts:29-34 | After setup, a stream exists unless the device is virtual, and motion is false. The services are exactly the old ones plus `SetupServices`. The bindings are exactly the old ones followed by the doorbell, floodlight and motion-switch handlers, in that order (`SetupBindings`). |
| `Camera.CameraAccessory.ConfigureFloodLight` | src/accessory/CameraAccessory.ts:36-67 | Without `floodlight_switch` nothing changes. Otherwise the light service gets the on/off handler, plus the brightness handlers exactly when `floodlight_lightness` exists. |
| `Camera.CameraAccessory.ConfigureMotion` | src/accessory/CameraAccessory.ts:69-79 | The motion sensor is always added with motion false. A switch for `motion_switch` is added exactly when that schema exists. |
| `Camera.CameraAccessory.ConfigureDoorbell` | src/accessory/CameraAccessory.ts:81-93 | The doorbell service and its switch-event handler are added exactly when the DOORBELL check passes and a ring or alarm schema exists. Otherwise nothing changes. |
| `Camera.CameraAccessory.ConfigureCamera` | src/accessory/CameraAccessory.ts:95-106 | The stream exists afterwards unless the device is virtual. A controller is configured only when no stream existed and the device is not virtual, so there is never more than one. Calling it again changes nothing. |
| `Camera.CameraAccessory.OnDeviceStatusUpdate` | src/accessory/CameraAccessory.ts:123-143 | The batch fires exactly the selected doorbell event (at most one). The routed motion entry, and only that, reaches `onMotionDetected`: the outcome is `MotionOutcomeOf` that entry, or none when nothing is routed. The motion state follows that entry and is unchanged when there is none. The motion sensor is added exactly when motion starts. |
| `Camera.CameraAccessory.OnMotionDetected` | src/accessory/CameraAccessory.ts:146-162 | The outcome is `MotionOutcomeOf` the status: not-initialized, decode error, empty payload or motion started, in the source's order. The motion state follows `MotionTimer.OnMotion`, and is unchanged for a value that is not a string. |
| `Camera.CameraAccessory.Tick` | src/accessory/CameraAccessory.ts:161 | The timer callback: the motion state follows `MotionTimer.Expire`. |

## Findings

| source | as written | input that shows it | evidently intended | confidence | as-written member | corrected member |
|---|---|---|---|---|---|---|
| src/accessory/CameraAccessory.ts:55 | `onGet` clamps a HomeKit percentage into the device range [min, max] | Device range [0, 50]: device value 50 (full brightness) reads as 50 percent. Device range [25, 255]: device value 25 (about 10 percent of the range) reads as 25 percent | Clamp into [0, 100]: full brightness reads as 100 percent, the minimum 25 of [25, 255] reads as 10 percent, and a set percentage reads back within one | medium; not executed | `Brightness.FullBrightnessReadsAsDeviceMax` | `Brightness.PercentFromDeviceCorrected` |

## Left out

- BaseAccessory is not part of this model. That covers `getSchema` (modelled as `Schema.FindSchema`), `getStatus`, `super.onDeviceStatusUpdate` (line 124), and how the `intialized` flag is set. `CompleteInitialization` stands in for that last one.
- src/util/util.ts is not part of this model. `remap` is taken as the linear rescale, and `limit` as `Math.max(min, Math.min(max, value))`.
- JavaScript doubles are replaced by exact reals, and `Math.round` by rounding halves up. Device and percentage values are integers.
- PercentFromDevice: requires a non-zero `max`. With `max == 0` the source divides by zero and gets NaN or an infinity, which is not modelled.
- Brightness bounds come from an integer property. Reading `min`/`max` from a non-integer property gives `undefined` in the source, which is not modelled.
- `onGet` reads the cached status through `getStatus`. The model takes that value as an argument.
- `sendCommands` is not modelled. The brightness command is the value `Brightness.DeviceFromPercent` returns.
- The HomeKit registry is reduced to a set of services and a list of handler bindings. Display names, characteristic plumbing and `configureController` are left out. On.ts and ProgrammableSwitchEvent.ts are not part of this model: a fired switch event is recorded as the status entry appended to `switchEvents`.
- TuyaStreamDelegate is not part of this model. Only "stream exists" and the number of configured controllers are kept.
- Logging is left out.
- `setTimeout` and `clearTimeout` become a deadline field and an explicit `Tick(now)`. Real event-loop scheduling is left out.
- Base64 decoding is a function passed as a parameter. Only whether its result is empty matters.
- A non-string motion value makes `Buffer.from` throw, and the batch's promise rejects. The model returns `DecodeError` and changes no state.
- String lengths are counted in characters, not UTF-16 code units. A single character outside the Basic Multilingual Plane has length 2 in the source and length 1 here.
- `configureMotion` sets MotionDetected to false but does not cancel a pending timer, exactly as the source does. The invariant "motion detected if and only if a timer is pending" is proved for input sequences (`MotionTimer.RunTracksLastMotion`). The class does not carry it, because setup could in principle run again.
