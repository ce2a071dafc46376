/** The Python bridge (web_receiver/test.py): it packs commands read from a
    command file into the binary frame and checks the sensor frames it
    receives. File reads and writes and the MQTT client are inputs and
    outputs here. */
module Receiver {
  import opened Bytes
  import opened Wrappers

  /** `struct.pack('<BIB', cmd_id, duration_ms, mode)`: one byte, a
      little-endian uint32 and one byte, with no padding. Out-of-range
      arguments raise `struct.error`, modelled as `None`. */
  function PackCommand(cmdId: int, durationMs: int, mode: int): (p: Option<seq<byte>>)
    ensures p.Some? <==> 0 <= cmdId < 256 && 0 <= durationMs < TWO32 && 0 <= mode < 256
    ensures p.Some? ==> |p.value| == 6 && p.value[0] == cmdId && p.value[5] == mode
                        && ReadLE32(p.value[1..5]) == durationMs
  {
    if 0 <= cmdId < 256 && 0 <= durationMs < TWO32 && 0 <= mode < 256 then
      var p := [cmdId as byte] + LE32(durationMs) + [mode as byte];
      assert p[1..5] == LE32(durationMs);
      Some(p)
    else None
  }

  /** `send_command_array`: the six packed bytes followed by their digest,
      38 bytes in all. */
  function SendCommandArray(cmdId: int, durationMs: int, mode: int, sha: HashFn): (packet: Option<seq<byte>>)
    ensures packet.Some? <==> PackCommand(cmdId, durationMs, mode).Some?
    ensures packet.Some? ==> |packet.value| == 38
                             && packet.value[..6] == PackCommand(cmdId, durationMs, mode).value
                             && packet.value[6..] == sha(packet.value[..6])
  {
    match PackCommand(cmdId, durationMs, mode)
    case None => None
    case Some(b) => Some(b + sha(b))
  }

  /** The command file's three keys, each possibly missing. */
  datatype CommandFile = CommandFile(command: Option<string>, duration: Option<int>, mode: Option<string>)

  /** `command_map.get(command, 0)`. */
  function CommandId(command: string): (id: int)
    ensures id == 1 <==> command == "pump_start"
    ensures id == 2 <==> command == "pump_stop"
    ensures id == 0 <==> command != "pump_start" && command != "pump_stop"
  {
    if command == "pump_start" then 1
    else if command == "pump_stop" then 2
    else 0
  }

  /** `0 if mode == "manual" else 1`. */
  function ModeId(mode: string): (id: int)
    ensures id == 0 <==> mode == "manual"
    ensures id == 1 <==> mode != "manual"
  {
    if mode == "manual" then 0 else 1
  }

  function GetOr<T>(o: Option<T>, default: T): (v: T)
    ensures o.None? ==> v == default
    ensures o.Some? ==> v == o.value
  {
    if o.Some? then o.value else default
  }

  /** `check_and_send_command`: `file` is `None` when the command file does
      not exist or cannot be read as JSON. The result is the frame published,
      if any. */
  function CheckAndSendCommand(file: Option<CommandFile>, sha: HashFn): (sent: Option<seq<byte>>)
    ensures file.None? ==> sent.None?
    ensures file.Some? ==>
      sent == SendCommandArray(CommandId(GetOr(file.value.command, "")), GetOr(file.value.duration, 0),
                               ModeId(GetOr(file.value.mode, "manual")), sha)
  {
    match file
    case None => None
    case Some(f) =>
      var cmdId := CommandId(GetOr(f.command, ""));
      var duration := GetOr(f.duration, 0);
      var modeId := ModeId(GetOr(f.mode, "manual"));
      SendCommandArray(cmdId, duration, modeId, sha)
  }

  /** What `save_to_json` writes: the five 4-byte fields in the order
      `'<fffff'` unpacks them, and the digest. */
  datatype SensorRecord = SensorRecord(
    temp: seq<byte>, hum: seq<byte>, soil: seq<byte>, rain: seq<byte>, totalMl: seq<byte>,
    digest: seq<byte>)

  /** `struct.unpack('<fffff', b4)` on the first 20 bytes, field bytes kept opaque. */
  function Unpack(b4: seq<byte>, sha: HashFn): (r: SensorRecord)
    requires |b4| == 20
    ensures |r.temp| == |r.hum| == |r.soil| == |r.rain| == |r.totalMl| == 4
    ensures r.temp + r.hum + r.soil + r.rain + r.totalMl == b4
    ensures r.digest == sha(b4)
  {
    SensorRecord(b4[0..4], b4[4..8], b4[8..12], b4[12..16], b4[16..20], sha(b4))
  }

  /** The two effects of `on_message`: the record saved, if any, and the
      command frame published, if any. */
  datatype MessageEffects = MessageEffects(saved: Option<SensorRecord>, sent: Option<seq<byte>>)

  function OnMessage(payload: seq<byte>, file: Option<CommandFile>, sha: HashFn): (e: MessageEffects)
    ensures |payload| < 20 ==> e == MessageEffects(None, None)
    ensures e.saved.Some? <==> |payload| >= 52 && sha(payload[..20]) == payload[20..52]
    ensures e.saved.Some? ==> e.saved.value == Unpack(payload[..20], sha)
    ensures |payload| >= 20 ==> e.sent == CheckAndSendCommand(file, sha)
  {
    if |payload| < 20 then MessageEffects(None, None)
    else
      var b4 := payload[..20];
      var saved := if |payload| >= 52 && sha(b4) == payload[20..52] then Some(Unpack(b4, sha)) else None;
      MessageEffects(saved, CheckAndSendCommand(file, sha))
  }
}
