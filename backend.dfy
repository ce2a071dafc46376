/** The backend process of backend/server.js as an object: the module-level
    `systemState` and `sensorData` become fields, and so do the auto-stop
    callbacks queued with `setTimeout`, the `getAIDecision` calls awaiting
    their child process, and the frames handed to the MQTT client. Each
    handler updates the fields in place; its contract ties the new state to
    the transition function of the same name in module PumpState. */
module BackendServer {
  import opened Bytes
  import opened Wrappers
  import opened SensorStore
  import opened CommandCodec
  import opened PumpState

  class Server {
    /** `systemState`: one object, never aliased; the handlers assign its
        properties in groups, modelled as one update per group. */
    var systemState: SystemState
    var sensorData: SensorData
    var timers: seq<Timer>
    var aiPending: seq<AiRequest>
    var published: seq<seq<byte>>

    /** The digest `crypto.createHash('sha256')` computes. */
    const sha: HashFn

    function Abstract(): Backend
      reads this
    {
      Backend(systemState, sensorData, timers, aiPending, published)
    }

    ghost predicate Valid()
      reads this
    {
      Inv(systemState)
    }

    /** Module load at time `now`, with `AI_ENABLED` read from the environment. */
    constructor (aiEnv: Option<string>, now: int, sha: HashFn)
      ensures Valid()
      ensures Abstract() == Initial(aiEnv, now) && this.sha == sha
    {
      systemState := SystemState(false, Automatic, None, 0, None, None, AiEnabledFromEnv(aiEnv), None, None);
      sensorData := InitialSensorData(now);
      timers := [];
      aiPending := [];
      published := [];
      this.sha := sha;
    }

    /** Hands a `publishCommand` result to the client: a built frame is
        appended to the log. */
    method Send(out: PublishOutcome)
      modifies this
      ensures Abstract() == old(Abstract()).(published := Record(old(published), out))
    {
      if out.Sent? {
        published := published + [out.frame];
      }
    }

    /** POST /api/mode. */
    method PostMode(mode: Option<string>, connected: bool) returns (status: int)
      requires Valid()
      modifies this
      ensures Valid()
      ensures Reply(Abstract(), status) == HandleMode(old(Abstract()), mode, connected, sha)
    {
      if mode.None? || mode.value == "" || (mode.value != "automatic" && mode.value != "manual") {
        return 400;
      }
      systemState := systemState.(mode := ParseMode(mode.value));
      var out := PublishCommand(connected, SetModeCmd, None, systemState.mode, systemState.mode, sha);
      Send(out);
      status := 200;
    }

    /** POST /api/pump/start: the state is updated before the command is
        built, so an exception from `writeUInt32BE` leaves the pump recorded
        as running with no auto-stop armed. */
    method PostPumpStart(duration: Option<int>, now: int, connected: bool) returns (status: int)
      requires Valid()
      modifies this
      ensures Valid()
      ensures Reply(Abstract(), status) == HandleStart(old(Abstract()), duration, now, connected, sha)
    {
      if systemState.pumpOn {
        return 400;
      }
      var durationMs := IntOr(duration, 10) * 1000;
      systemState := Started(systemState, Start, durationMs, now);
      var out := PublishCommand(connected, PumpStart, duration, systemState.mode, systemState.mode, sha);
      if out.RangeError? {
        return 500;
      }
      Send(out);
      status := 200;
      if systemState.mode == Automatic {
        timers := timers + [Timer(now + TimerDelay(durationMs))];
      }
    }

    /** POST /api/pump/stop. `runTime` is the reply's field: the time since
        the start, or 0 when the start time is falsy. */
    method PostPumpStop(now: int, connected: bool) returns (status: int, runTime: int)
      requires Valid()
      modifies this
      ensures Valid()
      ensures Reply(Abstract(), status) == HandleStop(old(Abstract()), now, connected, sha)
      ensures status == 200 && old(systemState.pumpStartTime) != Some(0) ==>
                runTime == now - old(systemState.pumpStartTime).value
      ensures status == 200 && old(systemState.pumpStartTime) == Some(0) ==> runTime == 0
    {
      runTime := 0;
      if !systemState.pumpOn {
        return 400, runTime;
      }
      runTime := if systemState.pumpStartTime.value != 0 then now - systemState.pumpStartTime.value else 0;
      systemState := Stopped(systemState, Stop, now);
      var out := PublishCommand(connected, PumpStop, None, systemState.mode, systemState.mode, sha);
      Send(out);
      status := 200;
    }

    /** The auto-stop callback of pending timer `i`, run at `now`. The
        callback of the start handler and that of the AI path are the same. */
    method AutoStopFires(i: nat, now: int, connected: bool)
      requires Valid()
      requires i < |timers|
      modifies this
      ensures Valid()
      ensures Abstract() == HandleTimer(old(Abstract()), i, now, connected, sha)
    {
      timers := timers[..i] + timers[i + 1..];
      if systemState.pumpOn {
        systemState := Stopped(systemState, AutoStop, now);
        var out := PublishCommand(connected, PumpStop, None, systemState.mode, systemState.mode, sha);
        Send(out);
      }
    }

    /** A message on the sensor topic; `data` is None when it is not JSON. */
    method OnSensorMessage(data: Option<map<string, JsValue>>, now: int)
      requires Valid()
      modifies this
      ensures Valid()
      ensures Abstract() == HandleSensorMessage(old(Abstract()), data, now)
    {
      if data.None? {
        return;
      }
      sensorData := Merge(sensorData, data.value, now);
      if systemState.mode == Automatic && systemState.aiEnabled && !systemState.pumpOn {
        aiPending := aiPending + [AiRequest(sensorData.temp, sensorData.hum, sensorData.soil)];
      }
    }

    /** The part of `getAIDecision` after the child process completes. */
    method GetAiDecision(outcome: OracleOutcome) returns (decision: Option<int>)
      modifies this
      ensures Abstract() == old(Abstract()).(sys := GetAIDecision(old(systemState), outcome).0)
      ensures decision == GetAIDecision(old(systemState), outcome).1
    {
      if !systemState.aiEnabled {
        return None;
      }
      match outcome
      case OracleFailed =>
        decision := None;
      case OracleReply(action, reason) =>
        systemState := systemState.(lastAIDecision := Some(action), lastAIReason := Some(ReasonOrDefault(reason)));
        decision := Some(action);
    }

    /** The `.then` continuation of pending AI call `i`, run at `now`. */
    method AiDecisionResolves(i: nat, outcome: OracleOutcome, now: int, connected: bool)
      requires Valid()
      requires i < |aiPending|
      modifies this
      ensures Valid()
      ensures Abstract() == HandleAiResolution(old(Abstract()), i, outcome, now, connected, sha)
    {
      aiPending := aiPending[..i] + aiPending[i + 1..];
      var decision := GetAiDecision(outcome);
      if decision == Some(1) {
        var durationMs := 10 * 1000;
        systemState := Started(systemState, AiStart, durationMs, now);
        var out := PublishCommand(connected, PumpStart, Some(10), systemState.mode, systemState.mode, sha);
        Send(out);
        timers := timers + [Timer(now + TimerDelay(durationMs))];
      }
    }
  }
}
