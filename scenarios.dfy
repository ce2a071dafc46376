/** Concrete event sequences through the backend's handlers, showing how
    timers that are never cleared and an AI completion that does not look
    again at the pump interact with human commands. */
module Scenarios {
  import opened Bytes
  import opened Wrappers
  import opened CommandCodec
  import opened PumpState

  /** Start (10 s, automatic) at 1 s, stop at 2 s, start again for 60 s at
      3 s: the first activation's timer, still pending, stops the second
      activation at 11 s with 52 s of it left. */
  lemma StaleTimerStopsNextActivation(sha: HashFn)
    ensures var b0 := Initial(None, 0);
      var b1 := HandleStart(b0, Some(10), 1000, true, sha).next;
      var b2 := HandleStop(b1, 2000, true, sha).next;
      var b3 := HandleStart(b2, Some(60), 3000, true, sha).next;
      && b2.timers == [Timer(11000)]
      && b3.sys.pumpOn && b3.sys.pumpDuration == 60000 && RemainingTime(b3.sys, 11000) == 52000
      && b3.timers == [Timer(11000), Timer(63000)]
      && var b4 := HandleTimer(b3, 0, 11000, true, sha);
         !b4.sys.pumpOn && b4.sys.lastCommand == Some(AutoStop) && b4.timers == [Timer(63000)]
  {
    var b0 := Initial(None, 0);
    var b1 := HandleStart(b0, Some(10), 1000, true, sha).next;
    assert b1.timers == [Timer(11000)];
    var b2 := HandleStop(b1, 2000, true, sha).next;
    var b3 := HandleStart(b2, Some(60), 3000, true, sha).next;
    assert b3.timers == [Timer(11000)] + [Timer(63000)];
  }

  /** Start, then an immediate stop: when the start's timer fires later it
      changes nothing and publishes nothing; `lastCommand` stays 'stop'. */
  lemma LateAutoStopIsNoOp(sha: HashFn)
    ensures var b0 := Initial(None, 0);
      var b1 := HandleStart(b0, Some(5), 1000, true, sha).next;
      var b2 := HandleStop(b1, 1500, true, sha).next;
      var b3 := HandleTimer(b2, 0, 6000, true, sha);
      && b1.sys.pumpDuration == 5000 && b2.timers == [Timer(6000)]
      && b3.sys == b2.sys && b3.published == b2.published
      && b3.sys.lastCommand == Some(Stop) && b3.timers == []
  {
    var b0 := Initial(None, 0);
    var b1 := HandleStart(b0, Some(5), 1000, true, sha).next;
    assert b1.timers == [Timer(6000)];
  }

  /** An AI call issued in automatic mode completes after a switch to manual:
      the pump is started anyway, in manual mode, with an auto-stop armed. */
  lemma AiStartsAfterSwitchToManual(sha: HashFn)
    ensures var b0 := Initial(None, 0);
      var b1 := HandleSensorMessage(b0, Some(map[]), 100);
      var b2 := HandleMode(b1, Some("manual"), true, sha).next;
      var b3 := HandleAiResolution(b2, 0, OracleReply(1, None), 200, true, sha);
      && |b1.aiPending| == 1
      && b2.sys.mode == Manual && !b2.sys.pumpOn
      && b3.sys.pumpOn && b3.sys.mode == Manual && b3.sys.lastCommand == Some(AiStart)
      && b3.sys.lastAIReason == Some("AI Model Decision")
      && b3.timers == [Timer(10200)]
  {
    var b0 := Initial(None, 0);
    var b1 := HandleSensorMessage(b0, Some(map[]), 100);
    assert AiGuard(b0.sys);
    var b2 := HandleMode(b1, Some("manual"), true, sha).next;
    assert b2.aiPending == b1.aiPending;
  }

  /** A human start for 60 s between an AI request and its completion: the
      completion overwrites the running activation's start time and planned
      duration, and a second auto-stop is armed. */
  lemma AiRestartsRunningPump(sha: HashFn)
    ensures var b0 := Initial(None, 0);
      var b1 := HandleSensorMessage(b0, Some(map[]), 100);
      var b2 := HandleStart(b1, Some(60), 150, true, sha).next;
      var b3 := HandleAiResolution(b2, 0, OracleReply(1, Some("dry")), 200, true, sha);
      && b2.sys.pumpOn && b2.sys.pumpDuration == 60000 && b2.timers == [Timer(60150)]
      && b3.sys.pumpOn && b3.sys.pumpStartTime == Some(200) && b3.sys.pumpDuration == 10000
      && b3.sys.lastCommand == Some(AiStart) && b3.sys.lastAIReason == Some("dry")
      && b3.timers == [Timer(60150), Timer(10200)]
  {
    var b0 := Initial(None, 0);
    var b1 := HandleSensorMessage(b0, Some(map[]), 100);
    assert AiGuard(b0.sys);
    var b2 := HandleStart(b1, Some(60), 150, true, sha).next;
    assert b2.aiPending == b1.aiPending;
    assert b2.timers == [Timer(60150)];
  }

  /** A pump started in manual mode has no auto-stop, and switching to
      automatic afterwards does not arm one. */
  lemma ManualActivationNotAutoStopped(sha: HashFn)
    ensures var b0 := Initial(None, 0);
      var b1 := HandleMode(b0, Some("manual"), true, sha).next;
      var b2 := HandleStart(b1, None, 1000, true, sha).next;
      var b3 := HandleMode(b2, Some("automatic"), true, sha).next;
      && b3.sys.pumpOn && b3.sys.mode == Automatic && b3.sys.pumpDuration == 10000
      && b3.timers == []
  {
    var b0 := Initial(None, 0);
    var b1 := HandleMode(b0, Some("manual"), true, sha).next;
    var b2 := HandleStart(b1, None, 1000, true, sha).next;
    assert b2.timers == [];
  }

  /** Switching to manual while an automatic activation runs keeps its
      auto-stop, which then stops the pump. */
  lemma SwitchToManualKeepsArmedTimer(sha: HashFn)
    ensures var b0 := Initial(None, 0);
      var b1 := HandleStart(b0, Some(1), 1000, true, sha).next;
      var b2 := HandleMode(b1, Some("manual"), true, sha).next;
      var b3 := HandleTimer(b2, 0, 2000, true, sha);
      && b2.sys.pumpOn && b2.sys.mode == Manual && b2.timers == [Timer(2000)]
      && !b3.sys.pumpOn && b3.sys.lastCommand == Some(AutoStop)
  {
    var b0 := Initial(None, 0);
    var b1 := HandleStart(b0, Some(1), 1000, true, sha).next;
    assert b1.timers == [Timer(2000)];
  }

  /** An automatic start for 3000000 s fits `writeUInt32BE` but not
      `setTimeout`, whose delay of 3 * 10^9 ms becomes 1 ms: the start is
      accepted and its auto-stop is due 1 ms later. */
  lemma LongStartAutoStopsAfterOneMs(sha: HashFn)
    ensures var r := HandleStart(Initial(None, 0), Some(3000000), 1000, true, sha);
      && r.status == 200 && r.next.sys.pumpOn && r.next.sys.pumpDuration == 3000000000
      && r.next.timers == [Timer(1001)]
      && RemainingTime(HandleTimer(r.next, 0, 1001, true, sha).sys, 1001) == 0
      && HandleTimer(r.next, 0, 1001, true, sha).sys.lastCommand == Some(AutoStop)
  {
    assert Publish(true, PumpStart, Some(3000000), Automatic, Automatic, sha)
        == Sent(Frame(1, 3000000, 1, sha));
  }

  /** With the MQTT client connected, a start for 2^32 s mutates the state,
      then `writeUInt32BE` throws: the pump is recorded as running, nothing is
      published and no auto-stop is armed even in automatic mode. */
  lemma OversizedStartLeavesPumpOnWithoutTimer(sha: HashFn)
    ensures var b0 := Initial(None, 0);
      var r := HandleStart(b0, Some(TWO32), 1000, true, sha);
      && r.status == 500 && r.next.sys.pumpOn && r.next.sys.mode == Automatic
      && r.next.timers == [] && r.next.published == []
  {
    var b0 := Initial(None, 0);
    assert Publish(true, PumpStart, Some(TWO32), Automatic, Automatic, sha) == RangeError;
  }
}
