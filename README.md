# Home-automation hub: a verified model

This project models the core of a home-automation hub built around an MQTT
broker. It has six parts:

- **Yandex Alice bridge** (`alice/services.py`). It lists the registered
  devices that Alice may see. It answers Alice's query requests from a
  short-lived state cache, falling back to the hardware API. It turns Alice's
  on/off actions into hardware commands.
- **Hardware API client** (`core/services/hardware_api.py`). It whitelists
  the command. It builds the URL of the hardware controller for the device's
  group, does one GET and classifies the answer. On success it caches the
  device state for 360 s and republishes it on the broker. A broker failure
  is swallowed.
- **Raw MQTT dispatcher** (`core/services/raw_mqtt.py`). It takes a message
  from the broker, either an RF remote code on `rc_code` or a structured
  `{"cmd": …}` payload. It resolves the message to a registered device and
  issues the command. For a roller shutter it first switches the partner
  relay.
- **Hardware controller service** (`ms/hw-ctrl/hw_ctrl.py`,
  `ms/hw-ctrl/sensors.py`). It serves:
  - Modbus relay writes and reads, and discrete inputs at register offset
    128;
  - the PZEM energy meter, unit 5, eight input registers;
  - 1-Wire thermometers, read from their `w1_slave` file;
  - two I2C sensors (SHT3x temperature/humidity and a light sensor), each
    behind a one-second flood lock and a result cache.
- **RF receiver** (`ms/rc-mqtt/rc_mqtt.py`). It polls the radio. It filters
  out noise: long pulses and codes of five digits or fewer. It forwards each
  code to `rc_code` at most once per two-second window.
- **MQTT subscriber** (`ms/mqtt-sub/mqtt_sub.py`). It forwards `rc_code`
  messages and messages carrying a truthy `cmd` to the hub's `/rawmqtt/`
  endpoint. It reconnects every 30 s after a broker error.

## How the model is written

- **Outside world.** Every effect on the outside world is a value threaded
  through the model:
  - the hub's `World` holds the state cache, the HTTP request log, the
    scripted HTTP replies, the broker's publications and the clock;
  - the Modbus `Bus` holds the operations issued and the scripted replies;
  - the I2C `SensorState` holds the cache, the clock, the I2C operations and
    the replies;
  - the subscriber's `Hub` holds the forms posted, the HTTP replies and the
    clock.
- **Time.** Time is in milliseconds, and a `sleep` advances the clock.
- **Functions and methods.**
  - Each source function that walks a list step by step is a `method` with
    a loop, proved equal to a recursive specification function.
  - The properties the source promises are lemmas about that function.
  - Pure decisions are functions.
- **Classes.** The two services that keep module-level mutable state are
  classes whose methods update fields: the sensors' cache
  (`Sensors.SensorService`) and the RF receiver's deduplication cache
  (`RcMqtt.RfForwarder`).

Where the code and its own documentation disagree, the model follows the code:

- **Meter power.** The docstring of `read_pzem` (`ms/hw-ctrl/hw_ctrl.py:178-188`)
  shows registers giving 7.4 W. The code takes register 3 as the high word
  and register 2 as the low word of the power. For the registers
  `[1188, 63, 0, 74, 81, 0, 0, 0]` that gives 484966.4 W (`HwCtrl.PzemExample`).

## Model

| member | source | states |
|---|---|---|
| Text.Split | core/services/raw_mqtt.py:57-62 | splitting a topic at `/` yields at least one part, and at least two exactly when the topic contains `/` |
| Text.JoinSplit | core/services/raw_mqtt.py:57-62 | the parts of a topic split at `/` join back to the topic, so nothing of the topic is lost |
| Text.DecimalLength | ms/rc-mqtt/rc_mqtt.py:48 | the decimal text of a code is longer than k characters exactly when the code is at least 10^k |
| Text.StatusStartsWithTwo | core/services/hardware_api.py:48 | for a three-digit HTTP status, its text starting with `2` is the same as the status being 2xx |
| TtlCache.StoreThenLookup | core/services/hardware_api.py:21-22 | a value written with a TTL reads back until the TTL runs out and is absent from then on |
| TtlCache.StoreKeepsOthers | core/services/hardware_api.py:21-22 | writing one key does not change what any other key reads |
| Bits.OrOfShifted | ms/hw-ctrl/hw_ctrl.py:51-52 | OR-ing a word shifted left by k with a value below 2^k is the same as adding them |
| AliceServices.MakeAliceDeviceList | alice/services.py:10-35 | the list built by the loop is the catalogue of Alice devices in registry order |
| AliceServices.CatalogueSound | alice/services.py:13-33 | every catalogue entry describes a registered device that is enabled for Alice and has a type |
| AliceServices.CatalogueComplete | alice/services.py:13-33 | every device enabled for Alice that has a type appears in the catalogue |
| AliceServices.DescribeFields | alice/services.py:14-31 | an entry's id is the device's string id, its mqtt field is `group/topic`, and its capabilities and properties are the device's own |
| AliceServices.StateCapOnOff | alice/services.py:70-85 | a cache hit issues no request, and a miss issues exactly one status read; the state is `{}` exactly when there is no cached state and the read fails; otherwise the on/off value is whether the cached status equals 1 |
| AliceServices.PropertyFloat | alice/services.py:46-67 | a cache hit issues no request, and a miss issues one status read; a failed read gives `{}`; otherwise the state is built from the reply now in the cache |
| AliceServices.FloatStateRule | alice/services.py:58-65 | a reply with a status becomes `{instance, value}` with value = status times the device multiplier; a reply without a status is passed through; a missing or falsy multiplier counts as 1 |
| AliceServices.ScaleExamples | alice/services.py:58-65 | with multiplier 220 a relay status of 1 reads 220 and a status of 0 reads 0; with no multiplier a status of 1 reads 1 |
| AliceServices.WalkEntries | alice/services.py:121-153 | the loop over a device's capabilities or properties, with its early returns, computes the specified walk |
| AliceServices.QuerySingleDeviceState | alice/services.py:109-156 | the query of one device equals the capability walk, else the property walk |
| AliceServices.StopPersists | alice/services.py:121-153 | once the walk has returned early on a prefix of the entries, the remaining entries change nothing |
| AliceServices.WalkCompleteResolvesAll | alice/services.py:121-153 | a walk that runs to the end has one item per entry, with the entry's type, a known capability or property type, and a non-empty state |
| AliceServices.QueryAbortRules | alice/services.py:109-156 | a device with neither capabilities nor properties is reported misconfigured; a device whose states are reported has only known types, one state per declared entry and no empty state; a misconfigured report carries the device id |
| AliceServices.WalkStopsWithoutStates | alice/services.py:121-153 | a walk that stops reports either the misconfigured device or the absence of a state, and nothing else |
| AliceServices.TypedEntriesNeverMisconfigured | alice/services.py:124-130 | when every entry has a type, the walk never reports the device as misconfigured |
| AliceServices.ActionCapOnOff | alice/services.py:88-106 | an action issues exactly one request, `on` for a truthy value and `off` otherwise, and reports DONE exactly when that request succeeds |
| AliceServices.ActionIgnoresCache | alice/services.py:88-106 | the outcome and the requests of an action do not depend on the state cache |
| AliceServices.ActionSingleDevice | alice/services.py:159-171 | the loop over the requested capabilities computes the specified action walk |
| AliceServices.ActionAnswersEach | alice/services.py:159-171 | one answer per requested capability, in order and of the same type; only on/off capabilities carry a state, and that state is the outcome of the on/off action for that capability's own requested value, on the world the earlier capabilities left; one hardware request per on/off capability |
| AliceServices.AnswerDevice | alice/services.py:181-207 | an unknown device id is answered as not found without touching the hardware; every answer carries the requested id; a found device is answered DEVICE_UNREACHABLE exactly when its query reply or action item list is empty, and otherwise that reply or list itself is filed under the device's key |
| AliceServices.AnswerOne | alice/services.py:181-207 | the loop body answering one requested device computes the specified answer |
| AliceServices.ParseDevicesQueryOrAction | alice/services.py:174-209 | the loop over the requested devices computes the specified batch of answers |
| AliceServices.BatchAnswersEach | alice/services.py:174-209 | one answer per requested device, in order and with its id; not found exactly for unknown ids; a query answer holds a resolved reply and an action answer holds a non-empty item list, each under the device's key |
| AliceServices.BatchAnswersInTurn | alice/services.py:180-207 | the k-th answer of the batch is the answer for the k-th requested device, given on the world the devices before it left |
| AliceServices.UndeclaredDeviceAnswer | alice/services.py:192-207 | a query for a device with neither capabilities nor properties answers with the misconfiguration report under `capabilities` and does nothing else |
| HardwareApi.HwRequest | core/services/hardware_api.py:25-63 | a command outside on/off/toggle/status is refused before any effect; a whitelisted one issues exactly one GET for the device, and its outcome is the classification of the service's next answer; only success caches the state for 360 s under `group/topic` and republishes it; failures are unreachable, error status, non-JSON body or hardware error |
| HardwareApi.MakeHwApiRequest | core/services/hardware_api.py:25-63 | the step-by-step request computes the specified outcome and effects |
| HardwareApi.PublishToMqtt | core/services/hardware_api.py:13-18 | a publication either reaches the broker or, on a broker failure, is dropped; the cache and the HTTP side are unchanged |
| HardwareApi.SuccessfulAnswer | core/services/hardware_api.py:44-58 | an answer counts as success exactly when the status is 2xx, the body is a JSON object and its `error` is falsy; the state passed on is the body's `data` |
| HardwareApi.PublishFailureSwallowed | core/services/hardware_api.py:13-18 | the broker's behaviour changes neither the outcome nor the cache nor the requests of a hardware request |
| HardwareApi.UrlShape | core/services/hardware_api.py:33-42 | every request URL starts with the base URL and the device's group and ends with `?cmd=` and the command |
| HardwareApi.UrlByGroup | core/services/hardware_api.py:37-42 | a relay device is addressed by `/relay/unit/channel` and a 1-Wire device by `/w1/topic` |
| RawMqtt.RollPartnerInvolution | core/services/raw_mqtt.py:14-21 | the partner of a shutter topic swaps `_up` and `_down`, and the partner's partner is the topic itself |
| RawMqtt.RollSwitched | core/services/raw_mqtt.py:14-27 | a missing partner changes nothing; an existing partner is switched off through the hardware API |
| RawMqtt.SwitchRoll | core/services/raw_mqtt.py:14-27 | the step-by-step partner switch has the specified effect |
| RawMqtt.Dispatch | core/services/raw_mqtt.py:30-82 | a refused message has its refusal as result and no effect |
| RawMqtt.ResolveRawMqtt | core/services/raw_mqtt.py:30-76 | the resolution of a message to a device and command follows the specified decision |
| RawMqtt.ParseRawMqtt | core/services/raw_mqtt.py:30-82 | handling a raw message has the specified result and effects |
| RawMqtt.RcTopicHasNoSlash | core/services/raw_mqtt.py:57 | the RF topic never takes the `group/topic` addressing path |
| RawMqtt.RcCodeRules | core/services/raw_mqtt.py:38-49 | an RF message without truthy data or with an unknown code is rejected with no effect; a known code toggles its device; a code row without a device is refused as not found |
| RawMqtt.CommandRules | core/services/raw_mqtt.py:51-55 | a structured message without a truthy `cmd` is rejected with no effect; otherwise the command issued is the payload's `cmd` |
| RawMqtt.AddressingRules | core/services/raw_mqtt.py:57-66 | a topic with `/` is looked up as `group/topic`, otherwise by topic alone; the lookup failing is the same as a topic-not-found refusal, which has no effect; a command goes to the device looked up |
| RawMqtt.UnitAndChannelGuard | core/services/raw_mqtt.py:68-73 | a relay or input device with neither unit nor channel is refused with no effect, and no command ever reaches such a device |
| RawMqtt.RollOrdering | core/services/raw_mqtt.py:75-82 | for a `roll_` device told `on` or `toggle`, the opposite motor (when registered) is sent `off` before the command, and the answer is the command's; otherwise the command is sent alone |
| Sensors.FormatResultSplits | ms/hw-ctrl/sensors.py:18-22 | the answer's `error` is the result's (false when absent) and its `data` is the rest of the result, without `error` |
| Sensors.PoppedReadingFormatsAlike | ms/hw-ctrl/sensors.py:18-22 | a reading whose `error` was already removed answers the same as the original |
| Sensors.Word16Value | ms/hw-ctrl/sensors.py:52-53 | two bytes combine big-endian into a 16-bit value |
| Sensors.Sht3xCacheHit | ms/hw-ctrl/sensors.py:32-37 | a cached reading of the requested kind is answered without any bus traffic, lock or clock change |
| Sensors.Sht3xLockBlocks | ms/hw-ctrl/sensors.py:39-40 | while the lock is held, a request not served from the cache gets the error answer and changes nothing |
| Sensors.Sht3xLockBeforeBus | ms/hw-ctrl/sensors.py:39-49 | the lock is taken for one second before the measurement command; if that command fails, the error answer is returned with only the lock set |
| Sensors.Sht3xMeasures | ms/hw-ctrl/sensors.py:43-62 | a successful measurement waits 500 ms, caches both readings for 60 s and answers the requested one |
| Sensors.MeasuredReadings | ms/hw-ctrl/sensors.py:51-57 | temperature is -45 + 175·t/65535 and humidity is ⌊100·h/65535⌋, between 0 and 100, both cached for 60 s |
| Sensors.LightLockFirst | ms/hw-ctrl/sensors.py:70-71 | while the light lock is held, the request gets the error answer and changes nothing, even with a cached result |
| Sensors.LightStartFails | ms/hw-ctrl/sensors.py:75-84 | if the first light read fails, the error answer is returned after one bus operation, with only the lock set |
| Sensors.LightReadingCached | ms/hw-ctrl/sensors.py:75-94 | a successful light reading waits 100 ms, caches the lux value for 30 s and answers it |
| Sensors.ServedTwiceAlike | ms/hw-ctrl/sensors.py:72-73 | serving a cached reading twice gives the same answer, although the first serving removes its `error` |
| Sensors.SensorService.SensorSht3x | ms/hw-ctrl/sensors.py:25-62 | the service's SHT3x request has the specified answer and new state |
| Sensors.SensorService.SensorLight | ms/hw-ctrl/sensors.py:65-94 | the service's light request has the specified answer and new state |
| Sensors.SensorService.MeasureLight | ms/hw-ctrl/sensors.py:77-94 | the bus part of a light request has the specified answer and new state |
| HwCtrl.FormatResultSplits | ms/hw-ctrl/hw_ctrl.py:35-39 | the answer's `error` is the result's and its `data` is the rest of the result |
| HwCtrl.RegisterCodeRoundTrip | ms/hw-ctrl/hw_ctrl.py:79-83 | the register value is 256, 512 or 768 and decodes back to on, off or toggle; any other command is written as on |
| HwCtrl.ModbusCommand | ms/hw-ctrl/hw_ctrl.py:63-98 | the step-by-step Modbus exchange has the specified result and bus traffic |
| HwCtrl.ModbusPaths | ms/hw-ctrl/hw_ctrl.py:63-98 | a read or status issues one holding read; a write issues the register write first and then a read; the result has a status exactly when there was no error, and that status is the register read back; an error result is exactly `{error: true}` |
| HwCtrl.RelayWritesIffCommand | ms/hw-ctrl/hw_ctrl.py:126-156 | the relay endpoint writes exactly when a command other than `status` is given, and otherwise only reads the channel |
| HwCtrl.InputReadsOffsetRegister | ms/hw-ctrl/hw_ctrl.py:159-174 | an input is read at channel + 128 and reported under its own channel and unit; a failure answers `{error: true, data: {}}` |
| HwCtrl.Word32Value | ms/hw-ctrl/hw_ctrl.py:51-52 | a high word shifted by 16 and OR-ed with a low word is 65536·hi + lo |
| HwCtrl.ReadPzem | ms/hw-ctrl/hw_ctrl.py:42-60 | the step-by-step meter read has the specified result and bus traffic |
| HwCtrl.PzemRequest | ms/hw-ctrl/hw_ctrl.py:42-60 | the meter is read as eight input registers of unit 5; success happens exactly when at least six registers come back, and its data is the decoded registers; otherwise the result is `{error: true}` |
| HwCtrl.PzemDataDecode | ms/hw-ctrl/hw_ctrl.py:48-54 | voltage and current are registers 0 and 1 in hundredths; power is register 3:2 in tenths; energy is register 5:4; the raw registers are kept |
| HwCtrl.PzemExample | ms/hw-ctrl/hw_ctrl.py:178-188 | the documented registers decode to 11.88 V, 0.63 A and 81 Wh, but to 484966.4 W rather than the documented 7.4 W |
| HwCtrl.Wire1ReadLines | ms/hw-ctrl/hw_ctrl.py:209-243 | the line loop with its counter and breaks computes the specified answer |
| HwCtrl.Wire1Rules | ms/hw-ctrl/hw_ctrl.py:220-243 | a reading succeeds exactly when the file exists, its first line ends in `YES` and its second line parses after `t=`; the value is in degrees |
| HwCtrl.ChooseSensor | ms/hw-ctrl/hw_ctrl.py:247-255 | humidity wins over temperature, which wins over light; no sensor is chosen exactly when none of the three names occurs |
| HwCtrl.SensorRequest | ms/hw-ctrl/hw_ctrl.py:247-255 | each chosen sensor is served by its measurement; an unknown sensor answers the bare error result and changes nothing |
| RcMqtt.SetWellformed | ms/rc-mqtt/rc_mqtt.py:19-28 | storing a code keeps the cache within its 10 entries with a consistent recency order, and the code is live for its TTL |
| RcMqtt.TouchWellformed | ms/rc-mqtt/rc_mqtt.py:19-24 | refreshing a cached code's recency keeps the cache well formed |
| RcMqtt.SendRules | ms/rc-mqtt/rc_mqtt.py:23-31 | a code still live in the cache is not published and its entries are unchanged; a new code is published once on `rc_code` and stays live for 2 s |
| RcMqtt.DedupWindow | ms/rc-mqtt/rc_mqtt.py:23-31 | a repeat of a just-forwarded code is forwarded again exactly when 2 s or more have passed |
| RcMqtt.RepeatDoesNotExtend | ms/rc-mqtt/rc_mqtt.py:23-31 | a suppressed repeat does not extend the window: the code is forwarded again 2 s after the first forward |
| RcMqtt.CleanMeans | ms/rc-mqtt/rc_mqtt.py:48 | the noise filter passes exactly the pulses shorter than 500 and the codes of at least 100000 |
| RcMqtt.TickRules | ms/rc-mqtt/rc_mqtt.py:43-50 | an unchanged timestamp is ignored; a new one is remembered, and its code is sent only when clean |
| RcMqtt.RunPublishesCleanCodes | ms/rc-mqtt/rc_mqtt.py:40-50 | polling only appends publications, keeps the cache well formed, and each new publication forwards the code of a clean poll |
| RcMqtt.RfForwarder.SendToMqtt | ms/rc-mqtt/rc_mqtt.py:23-31 | the receiver's send updates its cache and publications as specified |
| RcMqtt.RfForwarder.RxRead | ms/rc-mqtt/rc_mqtt.py:40-50 | the polling loop, starting with no timestamp, updates the receiver as specified |
| Models.First | core/services/raw_mqtt.py:35 | the result is a matching row of the registry, the first one in registry order, and there is none exactly when no row matches |
| MqttSub.Route | ms/mqtt-sub/mqtt_sub.py:56-66 | a message on a topic other than `rc_code` never ends the subscriber |
| MqttSub.RouteRules | ms/mqtt-sub/mqtt_sub.py:56-66 | a decodable `rc_code` message is forwarded; any other message is forwarded exactly when it is a JSON object with a truthy `cmd`; a forward posts exactly the topic and the payload text |
| MqttSub.AsWrittenDiffersOnlyOnRaises | ms/mqtt-sub/mqtt_sub.py:54-66 | the code as written differs from the corrected routing exactly on a message outside `rc_code` whose payload is not UTF-8 or is valid JSON but not an object; it crashes on those instead of skipping them |
| MqttSub.BareReadingCrashes | ms/mqtt-sub/mqtt_sub.py:65 | the payload `23.5` on `sensors/temp` crashes the code as written and is skipped by the corrected routing |
| MqttSub.UndecodablePayloadCrashes | ms/mqtt-sub/mqtt_sub.py:59-63 | a payload that is not UTF-8 on `sensors/temp` crashes the code as written, in its error log, and is skipped by the corrected routing |
| MqttSub.PostResult | ms/mqtt-sub/mqtt_sub.py:28-44 | an unreachable hub or a non-200 status gives `{}`; a 200 answer gives its JSON body |
| MqttSub.MqttSubSession | ms/mqtt-sub/mqtt_sub.py:47-66 | the message loop of one broker session, as written (it raises on a payload that is not UTF-8, on every topic, and on JSON that is not an object), has the specified effect and crash flag |
| MqttSub.SessionCrashPersists | ms/mqtt-sub/mqtt_sub.py:52-66 | once a session has crashed, later messages are not handled, as written and corrected |
| MqttSub.SessionStopsAtRaise | ms/mqtt-sub/mqtt_sub.py:58-66 | as written, a session that receives, outside `rc_code`, a payload that is not UTF-8 or a JSON payload that is not an object raises, whatever follows |
| MqttSub.SessionsAgreeWithoutRaises | ms/mqtt-sub/mqtt_sub.py:52-66 | on sessions without such payloads, the code as written and the corrected code have the same effect and outcome |
| MqttSub.SessionPostsForwarded | ms/mqtt-sub/mqtt_sub.py:52-66 | a session that does not crash, as written or corrected, posts exactly the forms of the forwarded messages, in order, and takes no time |
| MqttSub.MainTask | ms/mqtt-sub/mqtt_sub.py:75-83 | the reconnect loop over sessions, as written, has the specified effect and stop flag |
| MqttSub.MainStopsAtRaise | ms/mqtt-sub/mqtt_sub.py:75-83 | as written, the first session that receives such a payload (not UTF-8, or JSON but not an object, outside `rc_code`) ends the reconnect loop after its 30 s pause, and no later session runs |
| MqttSub.MainStopPersists | ms/mqtt-sub/mqtt_sub.py:75-83 | once the reconnect loop has stopped, later sessions do not run |
| MqttSub.ReconnectDelay | ms/mqtt-sub/mqtt_sub.py:75-83 | without a crash, as written or corrected, every session is followed by a 30 s pause before reconnecting |
| MqttSub.SessionSurvives | ms/mqtt-sub/mqtt_sub.py:52-66 | with decodable `rc_code` payloads and JSON answers from the hub, a session of the corrected subscriber never crashes |
| MqttSub.CorrectedMainNeverStops | ms/mqtt-sub/mqtt_sub.py:75-83 | under the same conditions the corrected reconnect loop never stops |

## Left out

- Floating-point formatting: the source rounds readings through `f"{x:.1f}"` and `:.2f`. The model keeps the exact real value of temperature, voltage, current, power and 1-Wire degrees.
- AliceServices.EntryState: `parameters.get('instance')` on an entry without `parameters` raises AttributeError in the source. The model reads the missing field as null.
- AliceServices.StateCapOnOff: `.get('status')` on a reply without a `data` object raises in the source. The model reads the missing field as null.
- RawMqtt.Decide: a truthy `payload` that is not an object (for example `123` on `rc_code`) raises AttributeError at `core/services/raw_mqtt.py:40` and 52. The model reads its missing `data` or `cmd` as null and answers Rejected.
- HardwareApi.Classify: a 2xx answer whose JSON body is not an object raises AttributeError at `core/services/hardware_api.py:54`. The model's `Body` holds only objects and unparsable bodies, so this raise is not modelled.
- AliceServices.FloatState: `'status' in status_reply` raises TypeError when the state is None (`alice/services.py:58`), and is a substring test when it is a string. The model reads any non-object as having no `status` and passes it through.
- AliceServices.ActionCapOnOff: `state.get('value')` on a missing or non-object `state` raises AttributeError (`alice/services.py:90`). The model reads its value as null and sends `off`.
- AliceServices.ActionSingleDevice: an entry of the requested `capabilities` that is not an object makes `single_capabilities.get('type')` raise AttributeError (`alice/services.py:164`). Nothing validates the entries: `capabilities` is a bare JSON field (`alice/serializers.py:25`). The model reads the type as null and answers that entry with an item of type null and no state.
- AliceServices.ActionAnswersEach: for the same non-object entry, the model states an answer with type null and no state, where the source raises.
- AliceServices.ActionSingleDevice: a `capabilities` value that is not a list cannot be represented (the model's request holds a sequence). In the source a string or an object is iterated, by character or by key, and a number raises TypeError.
- AliceServices.QueryWalk: an entry of `capabilities` or `properties` that is not an object raises AttributeError at `alice/services.py:122` and 140. The model reads its type as null and reports the device as misconfigured.
- RcMqtt.Send: `publish.single` (`ms/rc-mqtt/rc_mqtt.py:31`) is not guarded, so a broker failure raises out of `rx_read` and stops the service, with the code already cached at line 28. The model always publishes; broker failures are not modelled.
- AliceServices.Times: Python's `*` on strings, lists or objects (repetition or TypeError) is not modelled. Such a product is null.
- AliceServices.ParseDevicesQueryOrAction: the action request serializer (`alice/serializers.py:22-25`) declares no `properties` field. So `device.get('properties')` is None, and every action on a found device that declares properties raises TypeError (`alice/services.py:196-197`, 161). So does an action on a found device whose entry carries no `capabilities`. The model requires neither to happen: no found device of an action request declares properties, and each carries its capability list.
- RawMqtt.CodeText: a remote code given as a real, list or object is not converted to text. It matches no row.
- RcMqtt.Set: the `lruttl` cache's own source is not part of this model. Eviction is taken to be least-recently-used, with a read refreshing recency, and an expired entry stays until it is evicted.
- The sensors' `LRUCache(64)` holds at most five keys, so its capacity is never reached. It is modelled as an unbounded map with TTLs.
- HwCtrl.ModbusCommand: on the write path, a read-back frame with no registers raises IndexError outside the `try` in the source, and the web framework answers 500. The model answers `{error: true}`.
- Serial, I2C and 1-Wire input/output are scripted replies:
  - opening the serial port or the bus is not modelled, nor its failures;
  - the stop bits, baud rate and timeouts are not modelled;
  - the 1-Wire file path and its existence are a parameter (`Option` of the file's lines).
- HwCtrl.PzemRequest: the configured `PZEM_UNIT_ID` is passed to `serial` but ignored by `modbus_pzem`, which always reads unit 5. The model does the same.
- Concurrency is not modelled:
  - asyncio tasks, `asyncio.wait` and the `serial` wrapper;
  - races between concurrent requests on the locks and caches;
  - the signal handlers and `exit_handler`.
- Logging and the `DEBUG` branches have no effect and are not modelled, with one exception. The error log at `ms/mqtt-sub/mqtt_sub.py:63` decodes the payload again, so a payload that is not UTF-8 raises there. That raise is modelled (see Findings).
- JSON parsing of payloads and HTTP bodies, and UTF-8 decoding, are given as inputs: a message carries its decoded text and parsed JSON, or None.
- The never-ending loops are modelled as finite runs:
  - `rx_read` is a finite sequence of polls;
  - `main_task` is a finite sequence of broker sessions, each a finite sequence of messages.
- `mqtt_publish` (`ms/mqtt-sub/mqtt_sub.py:20-25`) is never called by the subscriber and is not modelled.
- The Django ORM queries are searches of the registry sequence, and the first match is the one in registry order. Other files of the hub are not part of this model:
  - the REST serializers, views and URL configuration;
  - the admin;
  - the settings.

## Findings

| source | as written | input that shows it | evidently intended | confidence | as-written member | corrected member |
|---|---|---|---|---|---|---|
| ms/mqtt-sub/mqtt_sub.py:63 | The handler for a payload that cannot be parsed logs `message.payload.decode()` again. For a payload that is not UTF-8, that second decode raises UnicodeDecodeError inside the `except` block. `main_task` catches only `MqttError`, so after its 30 s pause the subscriber stops. | the single byte `0xff` as payload on topic `sensors/temp` | a payload that cannot be decoded or parsed is logged and skipped | not executed | MqttSub.UndecodablePayloadCrashes | MqttSub.Route |
| ms/mqtt-sub/mqtt_sub.py:65 | `payload_json.get('cmd')` is called on any parsed JSON value. A number, string, list or null has no `.get`, so AttributeError is raised. `main_task` catches only `MqttError`, so after its 30 s pause the exception leaves the task and the subscriber stops. | payload `23.5` on topic `sensors/temp` | a valid JSON payload that is not an object carries no command and is skipped, like unparsable text | not executed | MqttSub.BareReadingCrashes | MqttSub.Route |
