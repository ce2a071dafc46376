/** The backend's command frame (backend/server.js, `publishCommand`): six
    bytes `control, duration (big-endian uint32), modeFlag`, followed by the
    32-byte digest of those six bytes. */
module CommandCodec {
  import opened Bytes
  import opened Wrappers

  datatype Mode = Automatic | Manual

  /** The three command names the backend publishes. */
  datatype CommandName = PumpStart | PumpStop | SetModeCmd

  /** The three packet fields before range checking: `duration` is whatever
      the caller supplied and may lie outside the uint32 range. */
  datatype Fields = Fields(control: byte, duration: int, modeFlag: byte)

  /** The result of one `publishCommand` call: `NotConnected` is the early
      `return false`; `RangeError` is the exception `writeUInt32BE` throws
      for a duration outside [0, 2^32); `Sent` is the frame handed to the client. */
  datatype PublishOutcome = NotConnected | RangeError | Sent(frame: seq<byte>)

  function ModeFlag(m: Mode): (f: byte)
    ensures f == 1 <==> m.Automatic?
    ensures f == 0 <==> m.Manual?
  {
    if m.Automatic? then 1 else 0
  }

  /** `d || dflt` where `d` is an integer or `undefined`: 0 and `undefined`
      are falsy and give the default. */
  function IntOr(d: Option<int>, dflt: int): (r: int)
    ensures d.None? || d == Some(0) ==> r == dflt
    ensures d.Some? && d.value != 0 ==> r == d.value
  {
    if d.Some? && d.value != 0 then d.value else dflt
  }

  /** The packet fields of a command. `dataDuration` is `data.duration`,
      `dataMode` is `data.mode`, and `stateMode` is `systemState.mode`. */
  function CommandFields(command: CommandName, dataDuration: Option<int>, dataMode: Mode, stateMode: Mode): (f: Fields)
    ensures command == PumpStart ==> f == Fields(1, IntOr(dataDuration, 10), ModeFlag(stateMode))
    ensures command == PumpStop ==> f == Fields(0, IntOr(dataDuration, 0), ModeFlag(stateMode))
    ensures command == SetModeCmd ==> f == Fields(2, 0, ModeFlag(dataMode))
  {
    match command
    case PumpStart => Fields(1, IntOr(dataDuration, 10), ModeFlag(stateMode))
    case PumpStop => Fields(0, IntOr(dataDuration, 0), ModeFlag(stateMode))
    case SetModeCmd => Fields(2, 0, ModeFlag(dataMode))
  }

  /** The six-byte packet. */
  function Packet(control: byte, duration: uint32, modeFlag: byte): (p: seq<byte>)
    ensures |p| == 6
  {
    [control] + BE32(duration) + [modeFlag]
  }

  /** The 38-byte frame: packet followed by its digest. */
  function Frame(control: byte, duration: uint32, modeFlag: byte, sha: HashFn): (fr: seq<byte>)
    ensures |fr| == 38
  {
    Packet(control, duration, modeFlag) + sha(Packet(control, duration, modeFlag))
  }

  /** What `publishCommand` does, as a value. */
  function Publish(connected: bool, command: CommandName, dataDuration: Option<int>,
                   dataMode: Mode, stateMode: Mode, sha: HashFn): (out: PublishOutcome)
    ensures !connected <==> out == NotConnected
    ensures var f := CommandFields(command, dataDuration, dataMode, stateMode);
      connected && 0 <= f.duration < TWO32 ==> out == Sent(Frame(f.control, f.duration, f.modeFlag, sha))
    ensures var f := CommandFields(command, dataDuration, dataMode, stateMode);
      connected && !(0 <= f.duration < TWO32) ==> out == RangeError
  {
    if !connected then NotConnected
    else
      var f := CommandFields(command, dataDuration, dataMode, stateMode);
      if 0 <= f.duration < TWO32 then Sent(Frame(f.control, f.duration, f.modeFlag, sha))
      else RangeError
  }

  /** The frame field by field: control, duration big-endian, mode flag, digest. */
  lemma {:induction false} FrameLayout(control: byte, duration: uint32, modeFlag: byte, sha: HashFn)
    ensures var fr := Frame(control, duration, modeFlag, sha);
      && fr[..6] == Packet(control, duration, modeFlag)
      && fr[0] == control
      && ReadBE32(fr[1..5]) == duration
      && fr[5] == modeFlag
      && fr[6..38] == sha(fr[..6])
  {
    var fr := Frame(control, duration, modeFlag, sha);
    assert fr[1..5] == BE32(duration);
  }

  /** Different packets give different frames, and the frame determines the
      command fields (it can be read back big-endian). */
  lemma {:induction false} FrameInjective(c1: byte, d1: uint32, m1: byte, c2: byte, d2: uint32, m2: byte, sha: HashFn)
    requires Frame(c1, d1, m1, sha) == Frame(c2, d2, m2, sha)
    ensures c1 == c2 && d1 == d2 && m1 == m2
  {
    FrameLayout(c1, d1, m1, sha);
    FrameLayout(c2, d2, m2, sha);
  }

  /** Start commands default to 10 s and stop commands carry 0 s when the
      caller gives no (or a zero) duration; publishing never fails then. */
  lemma DefaultDurations(stateMode: Mode, dataMode: Mode, sha: HashFn)
    ensures Publish(true, PumpStart, None, dataMode, stateMode, sha)
         == Sent(Frame(1, 10, ModeFlag(stateMode), sha))
    ensures Publish(true, PumpStop, None, dataMode, stateMode, sha)
         == Sent(Frame(0, 0, ModeFlag(stateMode), sha))
    ensures Publish(true, SetModeCmd, None, dataMode, stateMode, sha)
         == Sent(Frame(2, 0, ModeFlag(dataMode), sha))
  {
  }

  /** Only a start or stop with an explicit duration outside the uint32
      range throws; a mode command never does. */
  lemma {:induction false} RangeErrorOnlyForBadDuration(connected: bool, command: CommandName, dataDuration: Option<int>,
                                        dataMode: Mode, stateMode: Mode, sha: HashFn)
    ensures Publish(connected, command, dataDuration, dataMode, stateMode, sha) == RangeError
        <==> connected && command != SetModeCmd && dataDuration.Some?
             && !(0 <= dataDuration.value < TWO32)
  {
  }

  /** `publishCommand`: builds the packet in a fresh six-byte buffer, big-endian
      duration at offset 1, and appends the digest. */
  method PublishCommand(connected: bool, command: CommandName, dataDuration: Option<int>,
                        dataMode: Mode, stateMode: Mode, sha: HashFn) returns (out: PublishOutcome)
    ensures out == Publish(connected, command, dataDuration, dataMode, stateMode, sha)
  {
    if !connected {
      return NotConnected;
    }
    var f := CommandFields(command, dataDuration, dataMode, stateMode);
    var packet := new byte[6];
    packet[0] := f.control;
    if !(0 <= f.duration < TWO32) {
      return RangeError;
    }
    var be := BE32(f.duration);
    packet[1], packet[2], packet[3], packet[4] := be[0], be[1], be[2], be[3];
    packet[5] := f.modeFlag;
    assert packet[..] == Packet(f.control, f.duration, f.modeFlag);
    var hash := sha(packet[..]);
    out := Sent(packet[..] + hash);
  }
}
