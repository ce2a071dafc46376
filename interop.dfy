/** What happens when the three ends meet: frames built by the backend or by
    the Python bridge, decoded by the device; sensor frames built by the
    device, checked by the Python bridge. */
module Interop {
  import opened Bytes
  import opened Wrappers
  import CommandCodec
  import Device
  import Receiver

  /** A backend frame reaches the device with its duration byte-swapped: the
      backend writes big-endian, the device reads little-endian. */
  lemma {:induction false} BackendFrameAtDevice(control: byte, duration: uint32, modeFlag: byte, sha: HashFn)
    ensures Device.DecodeCommand(CommandCodec.Frame(control, duration, modeFlag, sha), sha)
         == Some(Device.DeviceCommand(control, ByteSwap32(duration), modeFlag))
    ensures Device.CallbackCalls(CommandCodec.Frame(control, duration, modeFlag, sha), sha)
         == Device.Dispatch(Device.DeviceCommand(control, ByteSwap32(duration), modeFlag))
  {
    var fr := CommandCodec.Frame(control, duration, modeFlag, sha);
    assert fr[1..5] == BE32(duration);
  }

  /** The device sees the backend's duration exactly when its four bytes
      read the same in both directions (0 does; 10 does not). */
  lemma BackendDurationPreservedIff(control: byte, duration: uint32, modeFlag: byte, sha: HashFn)
    ensures Device.DecodeCommand(CommandCodec.Frame(control, duration, modeFlag, sha), sha).value.duration == duration
        <==> BE32(duration) == Reverse4(BE32(duration))
  {
    BackendFrameAtDevice(control, duration, modeFlag, sha);
    ByteSwapFixedIffPalindrome(duration);
  }

  /** The backend's default start (10 s) makes the device run the pump for
      268435456 ms: it reads 10 * 2^24 seconds and the millisecond product
      wraps modulo 2^32. */
  lemma DefaultStartMisread(stateMode: CommandCodec.Mode, sha: HashFn)
    ensures var out := CommandCodec.Publish(true, CommandCodec.PumpStart, None, stateMode, stateMode, sha);
      && out.Sent?
      && Device.CallbackCalls(out.frame, sha)
         == [Device.PumpStartCall(268435456, CommandCodec.ModeFlag(stateMode)),
             Device.PumpSetModeCall(CommandCodec.ModeFlag(stateMode))]
  {
    var f := CommandCodec.ModeFlag(stateMode);
    CommandCodec.DefaultDurations(stateMode, stateMode, sha);
    BackendFrameAtDevice(1, 10, f, sha);
    TenSecondsSwapped();
  }

  lemma TenSecondsSwapped()
    ensures ByteSwap32(10) == 167772160
    ensures Device.SecondsToMs32(167772160) == 268435456
  {
    assert BE32(10) == [0, 0, 0, 10];
  }

  /** Backend stop frames (duration 0) and mode frames agree with the device:
      stop then set mode, or set mode alone. */
  lemma BackendStopAndModeAgree(stateMode: CommandCodec.Mode, dataMode: CommandCodec.Mode, sha: HashFn)
    ensures var stop := CommandCodec.Publish(true, CommandCodec.PumpStop, None, dataMode, stateMode, sha);
      stop.Sent? && Device.CallbackCalls(stop.frame, sha)
        == [Device.PumpStopCall(0), Device.PumpSetModeCall(CommandCodec.ModeFlag(stateMode))]
    ensures var setMode := CommandCodec.Publish(true, CommandCodec.SetModeCmd, None, dataMode, stateMode, sha);
      setMode.Sent? && Device.CallbackCalls(setMode.frame, sha)
        == [Device.PumpSetModeCall(CommandCodec.ModeFlag(dataMode))]
  {
    BackendFrameAtDevice(0, 0, CommandCodec.ModeFlag(stateMode), sha);
    BackendFrameAtDevice(2, 0, CommandCodec.ModeFlag(dataMode), sha);
    assert BE32(0) == [0, 0, 0, 0];
  }

  /** A frame from the Python bridge decodes to exactly the fields it packed. */
  lemma {:induction false} BridgeFrameAtDevice(cmdId: int, durationMs: int, mode: int, sha: HashFn)
    requires Receiver.SendCommandArray(cmdId, durationMs, mode, sha).Some?
    ensures Device.DecodeCommand(Receiver.SendCommandArray(cmdId, durationMs, mode, sha).value, sha)
         == Some(Device.DeviceCommand(cmdId, durationMs, mode))
  {
    var fr := Receiver.SendCommandArray(cmdId, durationMs, mode, sha).value;
    var p := Receiver.PackCommand(cmdId, durationMs, mode).value;
    assert fr[1..5] == p[1..5];
  }

  /** What the device does with each command file: `pump_start` starts the
      pump, `pump_stop` (id 2) only sets the mode, and a file without a
      recognised command (id 0) stops it. */
  lemma {:induction false} BridgeCommandAtDevice(file: Receiver.CommandFile, sha: HashFn)
    requires Receiver.CheckAndSendCommand(Some(file), sha).Some?
    ensures var frame := Receiver.CheckAndSendCommand(Some(file), sha).value;
      var duration := Receiver.GetOr(file.duration, 0);
      var mode := Receiver.ModeId(Receiver.GetOr(file.mode, "manual"));
      var command := Receiver.GetOr(file.command, "");
      && 0 <= duration < TWO32
      && (command == "pump_start" ==>
            Device.CallbackCalls(frame, sha)
            == [Device.PumpStartCall(Device.SecondsToMs32(duration), mode), Device.PumpSetModeCall(mode)])
      && (command == "pump_stop" ==>
            Device.CallbackCalls(frame, sha) == [Device.PumpSetModeCall(mode)])
      && (command != "pump_start" && command != "pump_stop" ==>
            Device.CallbackCalls(frame, sha) == [Device.PumpStopCall(duration), Device.PumpSetModeCall(mode)])
  {
    var duration := Receiver.GetOr(file.duration, 0);
    var mode := Receiver.ModeId(Receiver.GetOr(file.mode, "manual"));
    var cmdId := Receiver.CommandId(Receiver.GetOr(file.command, ""));
    BridgeFrameAtDevice(cmdId, duration, mode, sha);
  }

  /** The two ends' sensor-frame layouts side by side: the buffer `sha2`
      fills would pass the bridge's check and be saved, but with rain and
      total_ml exchanged, since the device writes total_ml before rain and
      the bridge unpacks rain before total_ml. */
  lemma {:induction false} SensorFrameAtBridge(
    temp: Device.Float32Bits, hum: Device.Float32Bits, soil: Device.Float32Bits,
    totalMl: Device.Float32Bits, rain: Device.Float32Bits,
    file: Option<Receiver.CommandFile>, sha: HashFn)
    ensures var input := Device.SensorInput(temp, hum, soil, totalMl, rain);
      var e := Receiver.OnMessage(input + sha(input), file, sha);
      && e.saved.Some?
      && e.saved.value.temp == temp && e.saved.value.hum == hum && e.saved.value.soil == soil
      && e.saved.value.rain == totalMl && e.saved.value.totalMl == rain
      && e.sent == Receiver.CheckAndSendCommand(file, sha)
  {
    var input := Device.SensorInput(temp, hum, soil, totalMl, rain);
    var payload := input + sha(input);
    assert payload[..20] == input;
    assert payload[20..52] == sha(input);
  }
}
