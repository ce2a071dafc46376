/** The backend's pump state machine (backend/server.js) as values: the
    module-level `systemState` and `sensorData`, the pending `setTimeout`
    auto-stop callbacks, the pending AI-service calls and the frames handed to
    the MQTT client. Each handler is a function from the state before to the
    state after; time (`Date.now()`) and the client's `connected` flag are
    inputs of each event. */
module PumpState {
  import opened Bytes
  import opened Wrappers
  import opened SensorStore
  import opened CommandCodec

  /** The values of `systemState.lastCommand`:
      'start', 'stop', 'auto_stop' and 'ai_start'. */
  datatype CommandKind = Start | Stop | AutoStop | AiStart

  datatype SystemState = SystemState(
    pumpOn: bool,
    mode: Mode,
    pumpStartTime: Option<int>,   // ms since the epoch, `null` when None
    pumpDuration: int,            // ms
    lastCommand: Option<CommandKind>,
    lastCommandTime: Option<int>,
    aiEnabled: bool,
    lastAIDecision: Option<int>,
    lastAIReason: Option<string>)

  /** A pending auto-stop callback, due at `due` ms. Both arming sites install
      the same callback body, and none is ever cleared. */
  datatype Timer = Timer(due: int)

  /** A `getAIDecision` call whose child process has not yet completed; it
      carries the three sensor values passed as arguments. */
  datatype AiRequest = AiRequest(temp: JsValue, hum: JsValue, soil: JsValue)

  /** How the AI-service call completes: `OracleFailed` for a timeout
      (5000 ms), a failing process or output that is not JSON;
      `OracleReply` for parsed output with its `action` and optional `reason`. */
  datatype OracleOutcome = OracleFailed | OracleReply(action: int, reason: Option<string>)

  datatype Backend = Backend(
    sys: SystemState,
    sensors: SensorData,
    timers: seq<Timer>,
    aiPending: seq<AiRequest>,
    published: seq<seq<byte>>)

  /** A handler's new state and HTTP status (200, 400, or 500 for an
      exception escaping the handler). */
  datatype Reply = Reply(next: Backend, status: int)

  /** The pump fields agree: a start time exactly while the pump runs, a zero
      duration while it is off, and a command time exactly when a command
      has been recorded. */
  ghost predicate Inv(s: SystemState) {
    && (s.pumpOn <==> s.pumpStartTime.Some?)
    && (!s.pumpOn ==> s.pumpDuration == 0)
    && (s.lastCommand.Some? <==> s.lastCommandTime.Some?)
  }

  /** `process.env.AI_ENABLED !== 'false'`. */
  function AiEnabledFromEnv(env: Option<string>): (enabled: bool)
    ensures !enabled <==> env == Some("false")
  {
    env != Some("false")
  }

  function Initial(aiEnv: Option<string>, now: int): (b: Backend)
    ensures Inv(b.sys) && !b.sys.pumpOn && b.sys.mode == Automatic
    ensures b.sys.aiEnabled == AiEnabledFromEnv(aiEnv) && b.sensors == InitialSensorData(now)
    ensures b.sys.lastCommand.None? && b.sys.lastAIDecision.None? && b.sys.lastAIReason.None?
    ensures b.timers == [] && b.aiPending == [] && b.published == []
  {
    Backend(
      SystemState(false, Automatic, None, 0, None, None, AiEnabledFromEnv(aiEnv), None, None),
      InitialSensorData(now), [], [], [])
  }

  /** Node's `setTimeout` runs a delay outside [1, 2^31 - 1] after 1 ms. */
  const TimeoutMax: int := 2147483647

  function TimerDelay(ms: int): (d: int)
    ensures 1 <= d <= TimeoutMax
    ensures 1 <= ms <= TimeoutMax ==> d == ms
    ensures !(1 <= ms <= TimeoutMax) ==> d == 1
  {
    if 1 <= ms <= TimeoutMax then ms else 1
  }

  /** The frames log after one `publishCommand` call. */
  function Record(published: seq<seq<byte>>, out: PublishOutcome): (r: seq<seq<byte>>)
    ensures out.Sent? ==> r == published + [out.frame]
    ensures !out.Sent? ==> r == published
  {
    if out.Sent? then published + [out.frame] else published
  }

  function ParseMode(m: string): Mode {
    if m == "automatic" then Automatic else Manual
  }

  /** POST /api/mode. */
  function HandleMode(b: Backend, mode: Option<string>, connected: bool, sha: HashFn): (r: Reply)
    ensures mode != Some("automatic") && mode != Some("manual") ==> r == Reply(b, 400)
    ensures mode == Some("automatic") || mode == Some("manual") ==>
      && r.status == 200
      && r.next.sys == b.sys.(mode := ParseMode(mode.value))
      && r.next.sensors == b.sensors && r.next.timers == b.timers && r.next.aiPending == b.aiPending
      && r.next.published
         == b.published + (if connected then [Frame(2, 0, ModeFlag(ParseMode(mode.value)), sha)] else [])
  {
    if mode.None? || mode.value == "" || (mode.value != "automatic" && mode.value != "manual") then
      Reply(b, 400)
    else
      var m := ParseMode(mode.value);
      var out := Publish(connected, SetModeCmd, None, m, m, sha);
      Reply(b.(sys := b.sys.(mode := m), published := Record(b.published, out)), 200)
  }

  /** The pump fields set by a start from the API or from the AI path. */
  function Started(s: SystemState, kind: CommandKind, durationMs: int, now: int): (t: SystemState)
    ensures t.pumpOn && t.pumpStartTime == Some(now) && t.pumpDuration == durationMs
    ensures t.lastCommand == Some(kind) && t.lastCommandTime == Some(now)
    ensures t.mode == s.mode && t.aiEnabled == s.aiEnabled
    ensures t.lastAIDecision == s.lastAIDecision && t.lastAIReason == s.lastAIReason
  {
    s.(pumpOn := true, pumpStartTime := Some(now), pumpDuration := durationMs,
       lastCommand := Some(kind), lastCommandTime := Some(now))
  }

  /** POST /api/pump/start with `duration` in seconds (undefined when None). */
  function HandleStart(b: Backend, duration: Option<int>, now: int, connected: bool, sha: HashFn): (r: Reply)
    ensures b.sys.pumpOn ==> r == Reply(b, 400)
    ensures !b.sys.pumpOn ==>
      && r.next.sys == Started(b.sys, Start, IntOr(duration, 10) * 1000, now)
      && r.next.sensors == b.sensors && r.next.aiPending == b.aiPending
      && var out := Publish(connected, PumpStart, duration, b.sys.mode, b.sys.mode, sha);
         r.next.published == Record(b.published, out)
         && (out.RangeError? ==> r.status == 500 && r.next.timers == b.timers)
         && (!out.RangeError? ==>
               && r.status == 200
               && r.next.timers == b.timers
                    + (if b.sys.mode == Automatic
                       then [Timer(now + TimerDelay(IntOr(duration, 10) * 1000))] else []))
  {
    if b.sys.pumpOn then Reply(b, 400)
    else
      var durationMs := IntOr(duration, 10) * 1000;
      var sys := Started(b.sys, Start, durationMs, now);
      var out := Publish(connected, PumpStart, duration, sys.mode, sys.mode, sha);
      if out.RangeError? then
        Reply(b.(sys := sys), 500)
      else
        var armed := if sys.mode == Automatic then [Timer(now + TimerDelay(durationMs))] else [];
        Reply(b.(sys := sys, published := Record(b.published, out), timers := b.timers + armed), 200)
  }

  /** The pump fields cleared by a stop or an auto-stop. */
  function Stopped(s: SystemState, kind: CommandKind, now: int): (t: SystemState)
    ensures !t.pumpOn && t.pumpStartTime.None? && t.pumpDuration == 0
    ensures t.lastCommand == Some(kind) && t.lastCommandTime == Some(now)
    ensures t.mode == s.mode && t.aiEnabled == s.aiEnabled
    ensures t.lastAIDecision == s.lastAIDecision && t.lastAIReason == s.lastAIReason
  {
    s.(pumpOn := false, pumpStartTime := None, pumpDuration := 0,
       lastCommand := Some(kind), lastCommandTime := Some(now))
  }

  /** POST /api/pump/stop. */
  function HandleStop(b: Backend, now: int, connected: bool, sha: HashFn): (r: Reply)
    ensures !b.sys.pumpOn ==> r == Reply(b, 400)
    ensures b.sys.pumpOn ==>
      && r.status == 200
      && r.next.sys == Stopped(b.sys, Stop, now)
      && r.next.sensors == b.sensors && r.next.timers == b.timers && r.next.aiPending == b.aiPending
      && r.next.published
         == b.published + (if connected then [Frame(0, 0, ModeFlag(b.sys.mode), sha)] else [])
  {
    if !b.sys.pumpOn then Reply(b, 400)
    else
      var out := Publish(connected, PumpStop, None, b.sys.mode, b.sys.mode, sha);
      Reply(b.(sys := Stopped(b.sys, Stop, now), published := Record(b.published, out)), 200)
  }

  function RemoveAt<T>(s: seq<T>, i: nat): (r: seq<T>)
    requires i < |s|
    ensures |r| == |s| - 1
    ensures forall j | 0 <= j < i :: r[j] == s[j]
    ensures forall j | i <= j < |r| :: r[j] == s[j + 1]
  {
    s[..i] + s[i + 1..]
  }

  /** The auto-stop callback of pending timer `i`, which fires at `now`:
      a no-op once the pump is off, otherwise a stop recorded as 'auto_stop'. */
  function HandleTimer(b: Backend, i: nat, now: int, connected: bool, sha: HashFn): (r: Backend)
    requires i < |b.timers|
    ensures r.timers == RemoveAt(b.timers, i)
    ensures r.sensors == b.sensors && r.aiPending == b.aiPending
    ensures !b.sys.pumpOn ==> r.sys == b.sys && r.published == b.published
    ensures b.sys.pumpOn ==>
      && r.sys == Stopped(b.sys, AutoStop, now)
      && r.published
         == b.published + (if connected then [Frame(0, 0, ModeFlag(b.sys.mode), sha)] else [])
  {
    var timers := RemoveAt(b.timers, i);
    if !b.sys.pumpOn then b.(timers := timers)
    else
      var out := Publish(connected, PumpStop, None, b.sys.mode, b.sys.mode, sha);
      b.(sys := Stopped(b.sys, AutoStop, now), published := Record(b.published, out), timers := timers)
  }

  /** The condition under which a sensor message asks the AI service. */
  predicate AiGuard(s: SystemState) {
    s.mode == Automatic && s.aiEnabled && !s.pumpOn
  }

  /** A message on the sensor topic. `data` is None when `JSON.parse` throws,
      and also when the payload parses to `null`, whose property read throws
      a TypeError; the handler catches both, and everything stays as it was. */
  function HandleSensorMessage(b: Backend, data: Option<map<string, JsValue>>, now: int): (r: Backend)
    ensures data.None? ==> r == b
    ensures data.Some? ==>
      && r.sensors == Merge(b.sensors, data.value, now)
      && r.sys == b.sys && r.timers == b.timers && r.published == b.published
      && r.aiPending
         == b.aiPending + (if AiGuard(b.sys) then [AiRequest(r.sensors.temp, r.sensors.hum, r.sensors.soil)] else [])
  {
    match data
    case None => b
    case Some(d) =>
      var sensors := Merge(b.sensors, d, now);
      var asked := if AiGuard(b.sys) then [AiRequest(sensors.temp, sensors.hum, sensors.soil)] else [];
      b.(sensors := sensors, aiPending := b.aiPending + asked)
  }

  /** The reason stored for a reply: `result.reason || 'AI Model Decision'`. */
  function ReasonOrDefault(reason: Option<string>): (r: string)
    ensures r != ""
    ensures reason.Some? && reason.value != "" ==> r == reason.value
    ensures reason.None? || reason.value == "" ==> r == "AI Model Decision"
  {
    if reason.Some? && reason.value != "" then reason.value else "AI Model Decision"
  }

  /** The tail of `getAIDecision`: a reply is recorded in `lastAIDecision` and
      `lastAIReason` and returned; a failure, or a disabled service, yields
      `null` (None) and records nothing. */
  function GetAIDecision(s: SystemState, outcome: OracleOutcome): (r: (SystemState, Option<int>))
    ensures !s.aiEnabled || outcome.OracleFailed? ==> r == (s, None)
    ensures s.aiEnabled && outcome.OracleReply? ==>
      r == (s.(lastAIDecision := Some(outcome.action), lastAIReason := Some(ReasonOrDefault(outcome.reason))),
            Some(outcome.action))
  {
    if !s.aiEnabled then (s, None)
    else match outcome
      case OracleFailed => (s, None)
      case OracleReply(action, reason) =>
        (s.(lastAIDecision := Some(action), lastAIReason := Some(ReasonOrDefault(reason))), Some(action))
  }

  /** Completion of pending AI call `i` at `now`. A decision with action 1
      starts the pump for 10 s and arms an auto-stop, without looking again
      at `pumpOn` or `mode`. */
  function HandleAiResolution(b: Backend, i: nat, outcome: OracleOutcome, now: int,
                              connected: bool, sha: HashFn): (r: Backend)
    requires i < |b.aiPending|
    ensures r.aiPending == RemoveAt(b.aiPending, i) && r.sensors == b.sensors
    ensures GetAIDecision(b.sys, outcome).1 != Some(1) ==>
      r.sys == GetAIDecision(b.sys, outcome).0 && r.timers == b.timers && r.published == b.published
    ensures GetAIDecision(b.sys, outcome).1 == Some(1) ==>
      && r.sys == Started(GetAIDecision(b.sys, outcome).0, AiStart, 10000, now)
      && r.timers == b.timers + [Timer(now + 10000)]
      && r.published
         == b.published + (if connected then [Frame(1, 10, ModeFlag(b.sys.mode), sha)] else [])
  {
    var pending := RemoveAt(b.aiPending, i);
    var (s, decision) := GetAIDecision(b.sys, outcome);
    if decision == Some(1) then
      var sys := Started(s, AiStart, 10 * 1000, now);
      var out := Publish(connected, PumpStart, Some(10), sys.mode, sys.mode, sha);
      b.(sys := sys, aiPending := pending, published := Record(b.published, out),
         timers := b.timers + [Timer(now + TimerDelay(10000))])
    else
      b.(sys := s, aiPending := pending)
  }

  /** `remainingTime` as the status endpoints compute it. A start time of 0
      is falsy in JavaScript and also gives 0. */
  function RemainingTime(s: SystemState, now: int): (r: int)
    ensures r >= 0
    ensures !s.pumpOn ==> r == 0
    ensures s.pumpStartTime == Some(0) ==> r == 0
  {
    if s.pumpOn && s.pumpStartTime.Some? && s.pumpStartTime.value != 0 then
      var left := s.pumpDuration - (now - s.pumpStartTime.value);
      if left > 0 then left else 0
    else 0
  }

  /** Once the pump started no later than `now`, the remaining time never
      exceeds the planned duration, and a running pump whose planned time
      has not yet elapsed reports exactly what is left. */
  lemma RemainingTimeBounded(s: SystemState, now: int)
    requires Inv(s)
    requires s.pumpStartTime.Some? ==> s.pumpStartTime.value <= now
    ensures 0 <= RemainingTime(s, now) <= (if s.pumpDuration > 0 then s.pumpDuration else 0)
    ensures s.pumpOn && s.pumpStartTime.value != 0 && now - s.pumpStartTime.value < s.pumpDuration ==>
      RemainingTime(s, now) == s.pumpDuration - (now - s.pumpStartTime.value)
    ensures s.pumpOn && s.pumpStartTime.value != 0 && now - s.pumpStartTime.value >= s.pumpDuration ==>
      RemainingTime(s, now) == 0
  {
  }

  // ---------------------------------------------------------------------
  // Event traces.

  datatype Event =
    | ModePosted(mode: Option<string>)
    | StartPosted(duration: Option<int>)
    | StopPosted
    | TimerFired(timer: nat)
    | SensorReceived(data: Option<map<string, JsValue>>)
    | AiResolved(request: nat, outcome: OracleOutcome)

  /** One event at time `now`, with the MQTT client's `connected` flag at that moment. */
  datatype Occurrence = Occurrence(event: Event, now: int, connected: bool)

  /** The event loop runs a timer only once it is due, and completes only
      pending AI calls. */
  predicate Enabled(b: Backend, occ: Occurrence) {
    match occ.event
    case TimerFired(i) => i < |b.timers| && b.timers[i].due <= occ.now
    case AiResolved(i, _) => i < |b.aiPending|
    case _ => true
  }

  function Step(b: Backend, occ: Occurrence, sha: HashFn): (r: Backend)
    ensures !Enabled(b, occ) ==> r == b
    ensures b.published <= r.published && r.sys.aiEnabled == b.sys.aiEnabled
  {
    if !Enabled(b, occ) then b
    else match occ.event
      case ModePosted(m) => HandleMode(b, m, occ.connected, sha).next
      case StartPosted(d) => HandleStart(b, d, occ.now, occ.connected, sha).next
      case StopPosted => HandleStop(b, occ.now, occ.connected, sha).next
      case TimerFired(i) => HandleTimer(b, i, occ.now, occ.connected, sha)
      case SensorReceived(d) => HandleSensorMessage(b, d, occ.now)
      case AiResolved(i, o) => HandleAiResolution(b, i, o, occ.now, occ.connected, sha)
  }

  /** The event loop: the occurrences handled one after another. Frames handed
      to the client are never taken back, and `aiEnabled` keeps its value
      from start-up. */
  function Run(b: Backend, occs: seq<Occurrence>, sha: HashFn): (r: Backend)
    ensures b.published <= r.published && r.sys.aiEnabled == b.sys.aiEnabled
    decreases |occs|
  {
    if occs == [] then b else Run(Step(b, occs[0], sha), occs[1..], sha)
  }

  /** Handling a trace in two parts is handling it whole. */
  lemma {:induction false} RunAppend(b: Backend, xs: seq<Occurrence>, ys: seq<Occurrence>, sha: HashFn)
    ensures Run(b, xs + ys, sha) == Run(Run(b, xs, sha), ys, sha)
    decreases |xs|
  {
    if xs == [] {
      assert xs + ys == ys;
    } else {
      assert (xs + ys)[0] == xs[0];
      assert (xs + ys)[1..] == xs[1..] + ys;
      RunAppend(Step(b, xs[0], sha), xs[1..], ys, sha);
    }
  }

  /** Every handler keeps the pump fields consistent. */
  lemma StepPreservesInv(b: Backend, occ: Occurrence, sha: HashFn)
    requires Inv(b.sys)
    ensures Inv(Step(b, occ, sha).sys)
  {
  }

  /** From any consistent state, whatever events arrive, the pump fields stay
      consistent: `pumpStartTime` is set exactly while `pumpOn`. */
  lemma {:induction false} RunPreservesInv(b: Backend, occs: seq<Occurrence>, sha: HashFn)
    requires Inv(b.sys)
    ensures Inv(Run(b, occs, sha).sys)
    decreases |occs|
  {
    if occs != [] {
      StepPreservesInv(b, occs[0], sha);
      RunPreservesInv(Step(b, occs[0], sha), occs[1..], sha);
    }
  }

  /** Times never go backwards along a trace, and none precedes `t`. */
  ghost predicate TimesFrom(occs: seq<Occurrence>, t: int) {
    forall i, j | 0 <= i <= j < |occs| :: t <= occs[i].now <= occs[j].now
  }

  ghost predicate StartedBy(s: SystemState, t: int) {
    s.pumpStartTime.Some? ==> s.pumpStartTime.value <= t
  }

  /** With time running forward, a recorded start time is never in the
      future, so the remaining time reported afterwards lies between 0 and
      the planned duration. */
  lemma {:induction false} RunStartsInPast(b: Backend, occs: seq<Occurrence>, t: int, later: int, sha: HashFn)
    requires StartedBy(b.sys, t)
    requires TimesFrom(occs, t)
    requires t <= later && forall i | 0 <= i < |occs| :: occs[i].now <= later
    ensures StartedBy(Run(b, occs, sha).sys, later)
    decreases |occs|
  {
    if occs != [] {
      var next := Step(b, occs[0], sha);
      assert StartedBy(next.sys, occs[0].now);
      assert TimesFrom(occs[1..], occs[0].now) by {
        forall i, j | 0 <= i <= j < |occs[1..]|
          ensures occs[0].now <= occs[1..][i].now <= occs[1..][j].now
        {
          assert occs[1..][i] == occs[i + 1] && occs[1..][j] == occs[j + 1];
        }
      }
      RunStartsInPast(next, occs[1..], occs[0].now, later, sha);
    }
  }

  /** No handler other than a timer's own callback removes a pending
      auto-stop: stops do not cancel them. */
  lemma TimersNeverCancelled(b: Backend, occ: Occurrence, sha: HashFn)
    requires !occ.event.TimerFired?
    ensures b.timers <= Step(b, occ, sha).timers
  {
  }

  /** The AI service is asked only by a sensor message arriving while the
      guard holds, and every such message asks it once. */
  lemma AiAskedOnlyUnderGuard(b: Backend, occ: Occurrence, sha: HashFn)
    ensures |Step(b, occ, sha).aiPending| > |b.aiPending| ==>
      occ.event.SensorReceived? && occ.event.data.Some? && AiGuard(b.sys)
    ensures occ.event.SensorReceived? && occ.event.data.Some? && AiGuard(b.sys) ==>
      |Step(b, occ, sha).aiPending| == |b.aiPending| + 1
  {
  }

  /** A start while the pump runs and a stop while it is off are rejected
      with 400 and change nothing, along any trace position. */
  lemma RejectionsChangeNothing(b: Backend, now: int, connected: bool, d: Option<int>, sha: HashFn)
    ensures b.sys.pumpOn ==> Step(b, Occurrence(StartPosted(d), now, connected), sha) == b
    ensures !b.sys.pumpOn ==> Step(b, Occurrence(StopPosted, now, connected), sha) == b
  {
  }
}
