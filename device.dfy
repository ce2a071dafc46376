/** The device side (src/taskMqtt.cpp): the binary command callback
    `mqttCallback` and the sensor-frame builder `sha2`. The calls into
    src/pump_control.cpp are recorded as `PumpCall` values, in order. */
module Device {
  import opened Bytes
  import opened Wrappers

  /** One call from the callback into the pump driver. */
  datatype PumpCall =
    | PumpStartCall(durationMs: uint32, mode: byte)
    | PumpStopCall(runTimeMs: uint32)
    | PumpSetModeCall(mode: byte)

  /** The three fields the callback reads out of an accepted frame. */
  datatype DeviceCommand = DeviceCommand(control: byte, duration: uint32, mode: byte)

  const FrameLength: nat := 38

  /** The checks the callback applies before acting: at least 38 bytes, and
      bytes 6..37 equal to the digest of bytes 0..5. Duration is read from
      bytes 1..4 in the CPU's native order, which on the ESP32 is
      little-endian; bytes from offset 38 on are never read. */
  function DecodeCommand(payload: seq<byte>, sha: HashFn): (c: Option<DeviceCommand>)
    ensures c.Some? <==> |payload| >= FrameLength && sha(payload[..6]) == payload[6..FrameLength]
    ensures c.Some? ==> c.value.control == payload[0] && c.value.mode == payload[5]
                        && LE32(c.value.duration) == payload[1..5]
  {
    if |payload| < FrameLength then None
    else if sha(payload[..6]) != payload[6..FrameLength] then None
    else
      LE32OfReadLE32(payload[1..5]);
      Some(DeviceCommand(payload[0], ReadLE32(payload[1..5]), payload[5]))
  }

  /** `duration * 1000` computed in `uint32_t`, which wraps modulo 2^32. */
  function SecondsToMs32(duration: uint32): (ms: uint32)
    ensures duration <= 4294967 ==> ms == duration * 1000
    ensures (duration * 1000 - ms) % TWO32 == 0
  {
    (duration * 1000) % TWO32
  }

  /** The pump calls an accepted command makes: start for control 1, stop for
      control 0, nothing for any other control; then always `pump_set_mode`. */
  function Dispatch(c: DeviceCommand): (calls: seq<PumpCall>)
    ensures 1 <= |calls| <= 2 && calls[|calls| - 1] == PumpSetModeCall(c.mode)
    ensures c.control == 1 <==> calls[0] == PumpStartCall(SecondsToMs32(c.duration), c.mode)
    ensures c.control == 0 <==> calls[0] == PumpStopCall(c.duration)
    ensures c.control != 0 && c.control != 1 <==> calls == [PumpSetModeCall(c.mode)]
  {
    if c.control == 1 then [PumpStartCall(SecondsToMs32(c.duration), c.mode), PumpSetModeCall(c.mode)]
    else if c.control == 0 then [PumpStopCall(c.duration), PumpSetModeCall(c.mode)]
    else [PumpSetModeCall(c.mode)]
  }

  /** Every pump call one invocation of `mqttCallback` makes. */
  function CallbackCalls(payload: seq<byte>, sha: HashFn): (calls: seq<PumpCall>)
    ensures |payload| < FrameLength ==> calls == []
    ensures |payload| >= FrameLength && sha(payload[..6]) != payload[6..FrameLength] ==> calls == []
    ensures calls != [] <==> DecodeCommand(payload, sha).Some?
    ensures DecodeCommand(payload, sha).Some? ==> calls == Dispatch(DecodeCommand(payload, sha).value)
    ensures calls != [] ==> calls[|calls| - 1] == PumpSetModeCall(payload[5])
  {
    match DecodeCommand(payload, sha)
    case None => []
    case Some(c) => Dispatch(c)
  }

  /** `mqttCallback`: length check, field reads, digest recomputation over a
      copy of bytes 0..5, comparison with the copied bytes 6..37, dispatch. */
  method MqttCallback(payload: seq<byte>, sha: HashFn) returns (calls: seq<PumpCall>)
    ensures calls == CallbackCalls(payload, sha)
  {
    calls := [];
    if |payload| < FrameLength {
      return;
    }
    var pumpControl := payload[0];
    var duration := ReadLE32(payload[1..5]);
    var mode := payload[5];
    var hashRecv := payload[6..38];
    var checkInput := payload[..6];
    var hashCalc := sha(checkInput);
    if hashCalc != hashRecv {
      return;
    }
    if pumpControl == 1 {
      calls := calls + [PumpStartCall(SecondsToMs32(duration), mode)];
    } else if pumpControl == 0 {
      calls := calls + [PumpStopCall(duration)];
    }
    calls := calls + [PumpSetModeCall(mode)];
  }

  /** Only the first 38 bytes of a payload decide what the device does. */
  lemma {:induction false} TrailingBytesIgnored(payload: seq<byte>, extra: seq<byte>, sha: HashFn)
    requires |payload| >= FrameLength
    ensures CallbackCalls(payload + extra, sha) == CallbackCalls(payload, sha)
    ensures CallbackCalls(payload, sha) == CallbackCalls(payload[..FrameLength], sha)
  {
    var p := payload + extra;
    assert p[..6] == payload[..6] == payload[..FrameLength][..6];
    assert p[6..FrameLength] == payload[6..FrameLength] == payload[..FrameLength][6..FrameLength];
    assert p[1..5] == payload[1..5] == payload[..FrameLength][1..5];
  }

  /** Changing one byte of the digest part of an accepted frame makes the
      device ignore it, for any digest function. */
  lemma {:induction false} DigestTamperRejected(frame: seq<byte>, i: nat, v: byte, sha: HashFn)
    requires DecodeCommand(frame, sha).Some?
    requires 6 <= i < FrameLength && v != frame[i]
    ensures CallbackCalls(frame[i := v], sha) == []
  {
    var t := frame[i := v];
    assert t[..6] == frame[..6];
    assert t[6..FrameLength][i - 6] != frame[6..FrameLength][i - 6];
  }

  /** Changing one byte of the packet part of an accepted frame makes the
      device ignore it, provided no two six-byte packets share a digest. */
  lemma {:induction false} PacketTamperRejected(frame: seq<byte>, i: nat, v: byte, sha: HashFn)
    requires InjectiveOn(sha, 6)
    requires DecodeCommand(frame, sha).Some?
    requires i < 6 && v != frame[i]
    ensures CallbackCalls(frame[i := v], sha) == []
  {
    var t := frame[i := v];
    assert t[6..FrameLength] == frame[6..FrameLength];
    assert t[..6][i] != frame[..6][i];
    assert sha(t[..6]) != sha(frame[..6]);
  }

  /** Stand-in for the 4-byte in-memory image of a `float`. */
  type Float32Bits = s: seq<byte> | |s| == 4 witness [0, 0, 0, 0]

  /** The 20 bytes `sha2` hashes: temp, hum, soil, total_ml, rain. */
  function SensorInput(temp: Float32Bits, hum: Float32Bits, soil: Float32Bits,
                       totalMl: Float32Bits, rain: Float32Bits): (input: seq<byte>)
    ensures |input| == 20
    ensures input[0..4] == temp && input[4..8] == hum && input[8..12] == soil
    ensures input[12..16] == totalMl && input[16..20] == rain
  {
    temp + hum + soil + totalMl + rain
  }

  /** Holds the global `output52` that `sha2` fills. The MQTT task calls
      `sha2` before each sensor report but publishes a JSON text, never
      this buffer. */
  class SensorFrameBuffer {
    const output52: array<byte>

    constructor ()
      ensures output52.Length == 52 && fresh(output52)
      ensures output52[..] == seq(52, _ => 0)
    {
      output52 := new byte[52](_ => 0);
    }

    /** `sha2`: the 20 input bytes, then their digest. */
    method Sha2(temp: Float32Bits, hum: Float32Bits, soil: Float32Bits,
                totalMl: Float32Bits, rain: Float32Bits, sha: HashFn)
      requires output52.Length == 52
      modifies output52
      ensures output52[..20] == SensorInput(temp, hum, soil, totalMl, rain)
      ensures output52[20..] == sha(output52[..20])
    {
      var input := new byte[20];
      forall i | 0 <= i < 4 { input[i] := temp[i]; }
      forall i | 4 <= i < 8 { input[i] := hum[i - 4]; }
      forall i | 8 <= i < 12 { input[i] := soil[i - 8]; }
      forall i | 12 <= i < 16 { input[i] := totalMl[i - 12]; }
      forall i | 16 <= i < 20 { input[i] := rain[i - 16]; }
      assert input[..] == SensorInput(temp, hum, soil, totalMl, rain);
      var out32 := sha(input[..]);
      forall i | 0 <= i < 20 { output52[i] := input[i]; }
      forall i | 20 <= i < 52 { output52[i] := out32[i - 20]; }
      assert output52[..20] == input[..];
      assert output52[20..] == out32;
    }
  }
}
