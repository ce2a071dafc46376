# Smart watering pump control: a Dafny model

This project models the command path of a smart watering system. There are three ends:

- **The Node.js backend** (`backend/server.js`). It keeps the pump state `systemState`, including:
  - whether the pump is on;
  - the mode (automatic or manual);
  - the start time and the planned duration;
  - the last command and its time;
  - the last AI decision.

  It handles `POST /api/mode`, `POST /api/pump/start` and `POST /api/pump/stop`. In automatic mode it arms a `setTimeout` auto-stop. On each sensor message it merges the fields into `sensorData`. When the guard holds (automatic mode, AI enabled, pump off), it also asks an AI service whether to water. Each command goes out as a 38-byte frame built by `publishCommand`: control byte, duration as a big-endian uint32 in seconds, mode flag, and the SHA-256 digest of those six bytes.
- **The ESP32 firmware** (`src/taskMqtt.cpp`):
  - `mqttCallback` checks the length and the digest of a command frame, then calls `pump_start`, `pump_stop` and `pump_set_mode`.
  - `sha2` fills the 52-byte buffer `output52`: five 4-byte floats followed by their digest.
- **The Python bridge** (`web_receiver/test.py`). It packs commands from a command file into the same frame layout with `struct.pack('<BIB')`. It checks the digest of each sensor frame before saving it.

## Module layout

| File | Module | Contents |
|---|---|---|
| `wrappers.dfy` | `Wrappers` | `Option` |
| `bytes.dfy` | `Bytes` | bytes, uint32, both byte orders, the digest function type |
| `sensor_store.dfy` | `SensorStore` | JavaScript truthiness and the sensor merge |
| `command_codec.dfy` | `CommandCodec` | `publishCommand` as a function and as a method over a byte buffer |
| `pump_state.dfy` | `PumpState` | the backend as a state machine over values, plus event traces |
| `backend.dfy` | `BackendServer` | the backend as a class whose handlers update its fields in place, each proved equal to its transition function |
| `device.dfy` | `Device` | `mqttCallback` and `sha2` (the latter filling a 52-byte array) |
| `receiver.dfy` | `Receiver` | `send_command_array`, `check_and_send_command` and `on_message` |
| `interop.dfy` | `Interop` | what each end makes of the frames the others build |
| `scenarios.dfy` | `Scenarios` | concrete event sequences through the backend |

## Modelling choices

- **SHA-256 is a parameter.** It is `sha: HashFn`, any total function from byte sequences to 32-byte digests. Every result therefore holds for every such function. Detecting a changed packet byte also needs injectivity on six-byte inputs, which is stated as a precondition.
- **Inputs of each event.** The clock (`Date.now()`) and the MQTT client's `connected` flag are inputs. The AI service's answer is an input too (`OracleOutcome`).
- **Pending work is explicit.** Pending `setTimeout` callbacks are a sequence of `Timer(due)`. Pending AI calls are a sequence of `AiRequest`. Frames handed to the MQTT client are a log of byte sequences.
- **Event order.** A trace may fire any due timer, and complete any pending AI call, in any order.
- **JavaScript semantics that matter here are written out:**
  - truthiness in `x || y`, so a reading of 0 is falsy;
  - `duration || 10`;
  - `Buffer.writeUInt32BE` throws a `RangeError` outside [0, 2^32);
  - `setTimeout` runs a delay outside [1, 2^31 - 1] after 1 ms;
  - `uint32_t` multiplication on the device wraps modulo 2^32.

### Behaviour worth knowing

- **Auto-stop timers are never cancelled.** No handler in backend/server.js calls `clearTimeout`. So a timer armed at line 250 for one activation stops a later one (`Scenarios.StaleTimerStopsNextActivation`, `PumpState.TimersNeverCancelled`).
- **AI completion does not re-check its guard.** The guard at backend/server.js:439 is evaluated when the AI service is asked. The continuation at line 442 looks only at the decision. A completion therefore starts the pump even after a switch to manual or a human start (`Scenarios.AiStartsAfterSwitchToManual`, `Scenarios.AiRestartsRunningPump`).
- **The duration's byte order differs between ends.**
  - The backend writes it big-endian (backend/server.js:352).
  - The device reads it in native order (src/taskMqtt.cpp:35), which is little-endian on the ESP32.
  - The Python bridge packs it little-endian (web_receiver/test.py:37).
  - As a result, a backend start of 10 s reaches the device as 10 * 2^24 s, which wraps to 268435456 ms (`Interop.DefaultStartMisread`). Backend frames with duration 0 agree (`Interop.BackendStopAndModeAgree`).
- **A long automatic start is stopped at once.** A start of 2147484 s up to 2^32 - 1 s passes `writeUInt32BE` (backend/server.js:352). Its millisecond delay, however, exceeds `setTimeout`'s limit, so the auto-stop armed at line 250 fires after 1 ms (`Scenarios.LongStartAutoStopsAfterOneMs`).
- **The sensor merge falls back on falsy values, not only on missing ones** (backend/server.js:424-429). A reading of `0` keeps the previous value (`SensorStore.FalsyReadingKeepsPrevious`).
- **The bridge's `pump_stop` is not a stop.** It maps `pump_stop` to control 2 (web_receiver/test.py:66-71), which the device treats as a mode change only (src/taskMqtt.cpp:57-62). A file with no recognised command maps to control 0, which the device treats as a stop (`Interop.BridgeCommandAtDevice`).
- **The two sensor-frame layouts disagree.** `sha2` writes `total_ml` before `rain` (src/taskMqtt.cpp:77-78). The bridge unpacks `rain` before `total_ml` (web_receiver/test.py:114). A frame in `sha2`'s layout would be saved with the two exchanged (`Interop.SensorFrameAtBridge`). The firmware as written never publishes that buffer: its MQTT task sends a JSON text instead (src/taskMqtt.cpp:329-341).
- **The bridge's comments give the wrong sizes.** They speak of a 12-byte packet and a 44-byte frame (web_receiver/test.py:33, 42). `'<BIB'` packs 6 bytes, so the frame has 38, which the model follows.

## Model

| member | source | states |
|---|---|---|
| `Bytes.BE32` | backend/server.js:352 | `writeUInt32BE`: four bytes that read back big-endian as the value |
| `Bytes.LE32` | web_receiver/test.py:37 | `'<I'`: four bytes that read back little-endian as the value |
| `Bytes.ReadLE32` | src/taskMqtt.cpp:35 | the device's native read is the big-endian read of the reversed bytes |
| `Bytes.ByteSwap32` | src/taskMqtt.cpp:35 | the value the device reads from a big-endian write has that write's bytes in reverse order |
| `Bytes.BE32OfReadBE32` | backend/server.js:352 | every four bytes are the big-endian image of the value they read as, so the encoding is onto |
| `Bytes.LE32OfReadLE32` | src/taskMqtt.cpp:35 | every four bytes are the little-endian image of the value they read as |
| `Bytes.BE32Injective` | backend/server.js:352 | different durations give different big-endian bytes |
| `Bytes.LE32IsReversedBE32` | src/taskMqtt.cpp:35 | the little-endian bytes are the big-endian bytes reversed |
| `Bytes.ByteSwapFixedIffPalindrome` | src/taskMqtt.cpp:35 | a little-endian read of a big-endian write gives the value back exactly when its four bytes are a palindrome |
| `SensorStore.Truthy` | backend/server.js:424-429 | the falsy values are exactly `undefined`, `null`, `false`, 0, `NaN` and the empty string |
| `SensorStore.OrChain` | backend/server.js:424-429 | a chain of JavaScript `or` operators picks the first truthy operand, and otherwise the last operand |
| `SensorStore.Get` | backend/server.js:424-429 | a present key reads its value and a missing one reads `undefined` |
| `SensorStore.InitialSensorData` | backend/server.js:41-48 | the initial readings are truthy except `flow` (0); `rain` is undefined |
| `SensorStore.Merge` | backend/server.js:423-431 | each field takes its first truthy alias, else the previous value; `rain` falls back to the previous rain, then to 0; the timestamp is the current time |
| `SensorStore.FalsyReadingKeepsPrevious` | backend/server.js:423-431 | a field whose aliases are all falsy in the message keeps its stored value; for `rain`, a falsy stored value becomes 0 |
| `SensorStore.ZeroTempKeepsPrevious` | backend/server.js:424 | a `temp` of 0 with no `temperature` key keeps the stored temperature |
| `SensorStore.MergeKeepsTruthy` | backend/server.js:423-431 | a field that held a truthy value is never made falsy; after a merge, `rain` is truthy or 0 |
| `SensorStore.OrChainTruthyOrLast` | backend/server.js:424-429 | an or-chain's value is truthy or it is the last operand |
| `CommandCodec.ModeFlag` | backend/server.js:338 | the flag is 1 exactly for automatic and 0 exactly for manual |
| `CommandCodec.IntOr` | backend/server.js:221 | undefined and 0 give the default; any other number is kept |
| `CommandCodec.CommandFields` | backend/server.js:331-347 | start: control 1, duration defaulting to 10, state's mode; stop: control 0, duration defaulting to 0, state's mode; set mode: control 2, duration 0, requested mode |
| `CommandCodec.Packet` | backend/server.js:350-353 | the packet is six bytes |
| `CommandCodec.Frame` | backend/server.js:356-359 | the frame is 38 bytes |
| `CommandCodec.Publish` | backend/server.js:324-359 | "not connected" exactly when the client is disconnected; when connected, the frame of the command's control, duration and mode flag if the duration fits a uint32, and a range error otherwise |
| `CommandCodec.FrameLayout` | backend/server.js:349-359 | frame byte 0 is the control, bytes 1-4 read big-endian as the duration, byte 5 is the mode flag, bytes 6-37 are the digest of bytes 0-5 |
| `CommandCodec.FrameInjective` | backend/server.js:349-359 | equal frames come from equal control, duration and mode flag |
| `CommandCodec.DefaultDurations` | backend/server.js:335-347 | with no duration given, start frames carry 10 s, stop and mode frames 0 s, and none of them throws |
| `CommandCodec.RangeErrorOnlyForBadDuration` | backend/server.js:352 | `writeUInt32BE` throws exactly when connected and a start or stop carries an explicit duration outside [0, 2^32) |
| `CommandCodec.PublishCommand` | backend/server.js:324-379 | the buffer-filling implementation returns exactly the outcome `Publish` specifies |
| `PumpState.AiEnabledFromEnv` | backend/server.js:58 | AI is disabled exactly when `AI_ENABLED` is the string `false` |
| `PumpState.Initial` | backend/server.js:51-61 | the backend starts in automatic mode with the pump off, the pump fields consistent, `aiEnabled` from the environment, the initial sensor readings, no command or AI decision recorded, and no timer, AI call or frame |
| `PumpState.TimerDelay` | backend/server.js:250-265 | the delay equals the requested delay when that lies in [1, 2^31 - 1], and is 1 ms otherwise |
| `PumpState.Record` | backend/server.js:363 | a sent frame is appended to the log; nothing else is logged |
| `PumpState.HandleMode` | backend/server.js:184-207 | a mode other than automatic or manual gives 400 and changes nothing; otherwise only `mode` changes and one set-mode frame is logged if connected |
| `PumpState.Started` | backend/server.js:223-227 | the pump runs from `now` for the duration, the command and its time are recorded, and mode and AI fields are kept |
| `PumpState.HandleStart` | backend/server.js:210-267 | 400 with no change when running; otherwise the pump starts for the duration (default 10 s) in ms, then either 500 with no frame and no timer (range error) or 200 with the frame logged and a timer armed only in automatic mode |
| `PumpState.Stopped` | backend/server.js:282-286 | the pump is off with no start time and zero duration, the command and its time are recorded, and mode and AI fields are kept |
| `PumpState.HandleStop` | backend/server.js:270-301 | 400 with no change when off; otherwise 200, pump stopped as `stop`, timers left armed, and a stop frame logged if connected |
| `PumpState.RemoveAt` | backend/server.js:250 | removing a fired timer keeps the others in order |
| `PumpState.HandleTimer` | backend/server.js:250-265 | the fired timer is removed; with the pump off nothing else changes; otherwise the pump stops as `auto_stop` and a stop frame is logged if connected |
| `PumpState.HandleSensorMessage` | backend/server.js:415-440 | unparseable data changes nothing; otherwise the sensors are merged and an AI call is queued exactly when mode is automatic, AI is enabled and the pump is off |
| `PumpState.ReasonOrDefault` | backend/server.js:87 | a non-empty reason is kept; a missing or empty one becomes `AI Model Decision`; the stored reason is never empty |
| `PumpState.GetAIDecision` | backend/server.js:64-95 | disabled AI or a failed call gives null and records nothing; a reply records its action and reason and is returned |
| `PumpState.HandleAiResolution` | backend/server.js:441-474 | the call is removed; a decision other than action 1 only records the decision; action 1 starts the pump for 10 s as `ai_start` and arms a timer, whatever the current pump state and mode |
| `PumpState.RemainingTime` | backend/server.js:114-116 | the remaining time is never negative, and is 0 while the pump is off or when the start time is the falsy 0 |
| `PumpState.RemainingTimeBounded` | backend/server.js:114-116 | with a start time not in the future, the remaining time is at most the planned duration, is exactly what is left while the planned time runs, and is 0 once it has elapsed |
| `PumpState.Step` | backend/server.js:415-483 | an event the loop cannot run (a timer not yet due, an unknown timer or AI call) changes nothing; no event takes back a published frame or changes `aiEnabled` |
| `PumpState.Run` | backend/server.js:184-483 | along any trace the frame log only grows and `aiEnabled` keeps its start-up value |
| `PumpState.RunAppend` | backend/server.js:184-483 | handling a trace in two parts gives the same state as handling it whole |
| `PumpState.AiAskedOnlyUnderGuard` | backend/server.js:439-440 | an AI call is queued only by a parsed sensor message in automatic mode with AI enabled and the pump off, and each such message queues exactly one |
| `PumpState.RunPreservesInv` | backend/server.js:51-61 | along any event trace, `pumpStartTime` is set exactly while the pump is on, the duration is 0 while it is off, and `lastCommandTime` is set exactly when `lastCommand` is |
| `PumpState.StepPreservesInv` | backend/server.js:223-227 | every handler keeps the pump fields consistent |
| `PumpState.RunStartsInPast` | backend/server.js:224 | with time running forward, a recorded start time never lies after the latest event time |
| `PumpState.TimersNeverCancelled` | backend/server.js:282-286 | no event other than a timer firing removes a pending auto-stop |
| `PumpState.RejectionsChangeNothing` | backend/server.js:213-218 | a start while running and a stop while off leave the whole state unchanged |
| `BackendServer.Server.constructor` | backend/server.js:41-61 | the fields hold the initial backend state |
| `BackendServer.Server.Send` | backend/server.js:363-379 | only the frame log changes, by the published frame |
| `BackendServer.Server.PostMode` | backend/server.js:184-207 | the in-place update yields the state and status `HandleMode` specifies and keeps the pump fields consistent |
| `BackendServer.Server.PostPumpStart` | backend/server.js:210-267 | the in-place update yields the state and status `HandleStart` specifies and keeps the pump fields consistent |
| `BackendServer.Server.PostPumpStop` | backend/server.js:270-301 | the in-place update yields the state and status `HandleStop` specifies; the reply's `runTime` is the time since a truthy start time, and 0 for a start time of 0 |
| `BackendServer.Server.AutoStopFires` | backend/server.js:250-265 | the callback yields the state `HandleTimer` specifies |
| `BackendServer.Server.OnSensorMessage` | backend/server.js:415-440 | the handler yields the state `HandleSensorMessage` specifies |
| `BackendServer.Server.GetAiDecision` | backend/server.js:64-95 | only the AI fields change, as `GetAIDecision` specifies, and its decision is returned |
| `BackendServer.Server.AiDecisionResolves` | backend/server.js:441-474 | the continuation yields the state `HandleAiResolution` specifies |
| `Device.DecodeCommand` | src/taskMqtt.cpp:27-55 | a frame is accepted exactly when it has at least 38 bytes and bytes 6-37 are the digest of bytes 0-5; then control and mode are bytes 0 and 5 and the duration's little-endian bytes are bytes 1-4 |
| `Device.SecondsToMs32` | src/taskMqtt.cpp:58 | the result is the product modulo 2^32, and the product itself up to 4294967 s |
| `Device.Dispatch` | src/taskMqtt.cpp:57-62 | control 1 starts, control 0 stops, any other control makes no pump call; `pump_set_mode` always comes last |
| `Device.CallbackCalls` | src/taskMqtt.cpp:22-64 | short or badly hashed payloads make no call; a payload makes calls exactly when it is accepted, and then makes the calls its decoded command dispatches, the last setting the mode from byte 5 |
| `Device.MqttCallback` | src/taskMqtt.cpp:22-64 | the step-by-step callback makes exactly the calls `CallbackCalls` specifies |
| `Device.TrailingBytesIgnored` | src/taskMqtt.cpp:27-44 | bytes after the first 38 never change what the device does |
| `Device.DigestTamperRejected` | src/taskMqtt.cpp:39-55 | changing any digest byte of an accepted frame makes the device ignore it |
| `Device.PacketTamperRejected` | src/taskMqtt.cpp:43-55 | for a digest injective on six bytes, changing any packet byte of an accepted frame makes the device ignore it |
| `Device.SensorInput` | src/taskMqtt.cpp:72-78 | the 20 hashed bytes are temp, hum, soil, total_ml and rain, four bytes each, in that order |
| `Device.SensorFrameBuffer.constructor` | src/taskMqtt.cpp:69 | the global buffer has 52 zero bytes |
| `Device.SensorFrameBuffer.Sha2` | src/taskMqtt.cpp:71-90 | the buffer holds the 20 input bytes followed by their digest |
| `Receiver.PackCommand` | web_receiver/test.py:37 | packing succeeds exactly when each argument fits its field; then byte 0 is the command, bytes 1-4 read little-endian as the duration and byte 5 is the mode |
| `Receiver.SendCommandArray` | web_receiver/test.py:35-47 | a frame exists exactly when packing succeeds; it is 38 bytes, the packed bytes followed by their digest |
| `Receiver.CommandId` | web_receiver/test.py:66-71 | `pump_start` maps to 1, `pump_stop` to 2, any other string to 0 |
| `Receiver.ModeId` | web_receiver/test.py:72 | `manual` maps to 0 and any other mode to 1 |
| `Receiver.GetOr` | web_receiver/test.py:61-63 | a missing key gives the default, a present one its value |
| `Receiver.CheckAndSendCommand` | web_receiver/test.py:53-85 | a missing or unreadable file sends nothing; otherwise the frame is built from the file's command, duration (default 0) and mode (default manual) |
| `Receiver.Unpack` | web_receiver/test.py:113-114 | the five 4-byte fields concatenate back to the 20 input bytes, and the saved hash is their digest |
| `Receiver.OnMessage` | web_receiver/test.py:99-142 | under 20 bytes nothing happens; a record is saved exactly when there are at least 52 bytes and bytes 20-51 are the digest of bytes 0-19; the command file is processed after any payload of 20 bytes or more, whether or not the digest matched |
| `Interop.BackendFrameAtDevice` | src/taskMqtt.cpp:35 | a backend frame is accepted by the device with control and mode intact and the duration byte-swapped |
| `Interop.BackendDurationPreservedIff` | backend/server.js:352 | the device sees the backend's duration exactly when its big-endian bytes are a palindrome |
| `Interop.DefaultStartMisread` | backend/server.js:337 | a backend start with the default 10 s makes the device run the pump for 268435456 ms |
| `Interop.TenSecondsSwapped` | src/taskMqtt.cpp:58 | 10 byte-swapped is 167772160, whose millisecond product wraps to 268435456 |
| `Interop.BackendStopAndModeAgree` | backend/server.js:339-347 | backend stop frames make the device stop then set the mode; mode frames only set the mode |
| `Interop.BridgeFrameAtDevice` | web_receiver/test.py:35-47 | a bridge frame decodes on the device to exactly the fields packed |
| `Interop.BridgeCommandAtDevice` | web_receiver/test.py:66-72 | `pump_start` starts the pump, `pump_stop` only sets the mode, and an unknown command stops the pump |
| `Interop.SensorFrameAtBridge` | web_receiver/test.py:114 | a frame in `sha2`'s layout would pass the bridge's check and be saved with `rain` and `total_ml` exchanged |
| `Scenarios.StaleTimerStopsNextActivation` | backend/server.js:249-266 | start 10 s, stop, start 60 s: the first timer stops the second activation with 52 s left |
| `Scenarios.LateAutoStopIsNoOp` | backend/server.js:251 | an auto-stop after a manual stop changes nothing and publishes nothing |
| `Scenarios.AiStartsAfterSwitchToManual` | backend/server.js:441-474 | an AI call issued in automatic mode starts the pump after a switch to manual |
| `Scenarios.AiRestartsRunningPump` | backend/server.js:446-448 | an AI completion overwrites a running activation's start time and duration and arms a second timer |
| `Scenarios.ManualActivationNotAutoStopped` | backend/server.js:249 | a manual start arms no timer, and a later switch to automatic arms none either |
| `Scenarios.SwitchToManualKeepsArmedTimer` | backend/server.js:250-265 | a timer armed in automatic mode still stops the pump after a switch to manual |
| `Scenarios.LongStartAutoStopsAfterOneMs` | backend/server.js:249-265 | an automatic start for 3000000 s is accepted, but its auto-stop is due 1 ms later and stops the pump |
| `Scenarios.OversizedStartLeavesPumpOnWithoutTimer` | backend/server.js:221-236 | a start for 2^32 s leaves the pump on, publishes nothing and arms no timer, with status 500 |

## Left out

- HTTP, Socket.IO and console output (`io.emit`, `emitSystemState`, `res.json` bodies other than the status and `runTime`) are side effects with no bearing on the state.
- `POST /api/ai/toggle` and `GET /api/ai/decide` (backend/server.js:140-180) are left out, so `aiEnabled` keeps its value from start-up.
- Read-only endpoints (`/api/health`, `/api/sensors`, `/api/status`, `/api/mode`) are modelled only through `RemainingTime`.
- The MQTT connection life-cycle, QoS, topics and the publish callback's error are left out: `connected` is an input of each event, and a frame handed to the client counts as published.
- The AI service's internals (`AI_service.py`) are left out: each completion is an input `OracleOutcome`, covering the 5000 ms timeout, process failure and malformed output.
- Non-integer JSON durations are left out: strings, fractions and negative zero, and also the effect of Python's `int()` on strings and floats in the command file. Durations are integers or absent.
- Float values are left out: sensor floats are opaque 4-byte images, and `round(x, 2)` in the saved record is not modelled. Backend sensor values are JSON values with numbers as reals.
- The device's driver (`src/pump_control.cpp`), FreeRTOS tasks, Wi-Fi and the sensors are left out: the callback's effect is the sequence of driver calls.
- The firmware's JSON command callback is compiled only under `ENCRYPTION` and is left out.
- File I/O in the bridge is left out: `save_to_json` is the returned record, and the command file is an input that is `None` when it is missing or unreadable. `time.sleep(1)` is left out.
- The ESP32's native byte order is taken to be little-endian, as on that chip.
- SHA-256 itself is left out: the digest is an arbitrary function parameter.
- `CommandCodec.Frame`: its own contract states only the length, because the field-by-field layout is `FrameLayout`.
- `CommandCodec.Packet`: its own contract states only the length, because the bytes it holds are stated by `FrameLayout`.
- `output52` is never published by the firmware as written: the MQTT task calls `sha2` and then sends a JSON text (src/taskMqtt.cpp:327-341). The JSON sensor report is not modelled, so `Interop.SensorFrameAtBridge` relates the layouts of the two ends, not a message that actually flows.
- Each backend handler reads `Date.now()` twice, once for `pumpStartTime` and once for `lastCommandTime` (backend/server.js:224/227, 447/450). The model uses one `now` for both.
- `Receiver.CommandFile` types `command` and `mode` as strings or missing. JSON `null` or values of other types are not modelled; for example, `"mode": null` gives mode id 1 in the source (web_receiver/test.py:63, 72).
