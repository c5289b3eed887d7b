/**
 * The capture / acknowledge cycle of the device (src/main.cpp).
 *
 * Two flags track the single outstanding verification request: the reply
 * handler only acts while a request is outstanding, and the main cycle arms
 * the request after publishing a frame, polls for the reply up to a
 * timeout, and clears both flags afterwards. Hardware and network effects
 * enter as inputs: the echo pulse width, whether the camera produced a
 * frame, whether publishing reported success, the millisecond clock and
 * the messages the transport delivers while polling.
 */
module Main {
  import opened Wrappers
  import Sonar
  import StdString

  /** Capture window, in centimetres. */
  const MinCaptureDist: int := 25
  const MaxCaptureDist: int := 40

  /** Sampling period, reply timeout and quiet period, in milliseconds. */
  const SampleTime: nat := 500
  const AckTimeout: nat := 30000
  const QuietPeriod: nat := 5000

  /** The topic replies arrive on, and the marker of a negative verdict. */
  const SubTopic: string := "Result"
  const NoMatchMarker: string := "NO MATCH"

  /** The millisecond clock is an unsigned 32-bit counter that wraps. */
  const ClockModulus: int := 0x1_0000_0000
  type Clock = t: int | 0 <= t < 0x1_0000_0000

  /** The colours the indicator is set to by the cycle. */
  datatype Light = Blue | White | Aqua | Red | Green

  /** An inbound message: its topic and its payload. */
  datatype Message = Message(topic: string, payload: string)

  /** One pass of the polling loop: the message the transport delivered, if any, then the clock reading. */
  datatype Step = Step(inbound: Option<Message>, now: Clock)

  /** What one run of the main cycle did. */
  datatype Cycle =
    | NoCapture                    // distance outside the capture window
    | CaptureFailed                // the camera produced no frame
    | Exchanged(sent: bool, polls: nat, timedOut: bool, shown: Light)
                                   // frame published, reply awaited; `shown` is the light during the quiet period

  /** The sampled distance warrants a capture. */
  predicate InCaptureWindow(distance: int)
  {
    MinCaptureDist <= distance <= MaxCaptureDist
  }

  /** Milliseconds since `start`, by unsigned 32-bit subtraction. */
  function Elapsed(start: Clock, now: Clock): Clock
  {
    (now - start) % ClockModulus
  }

  predicate TimedOut(start: Clock, now: Clock)
  {
    Elapsed(start, now) >= AckTimeout
  }

  /** The light a reply payload selects: red when it begins with the negative marker, green otherwise. */
  function Verdict(payload: string): Light
  {
    if NoMatchMarker <= payload then Red else Green
  }

  /** A polling step ends the wait: a message arrives (and is handled) or the timeout is reached. */
  predicate EndsWait(start: Clock, s: Step)
  {
    s.inbound.Some? || TimedOut(start, s.now)
  }

  /** The injected steps reach the end of the wait. */
  predicate Settles(start: Clock, steps: seq<Step>)
  {
    exists i | 0 <= i < |steps| :: EndsWait(start, steps[i])
  }

  /** The index of the step at which the wait ends: the first one that ends it. */
  function WaitEnd(start: Clock, steps: seq<Step>): (k: nat)
    requires Settles(start, steps)
    ensures k < |steps| && EndsWait(start, steps[k])
    ensures forall j | 0 <= j < k :: !EndsWait(start, steps[j])
    decreases |steps|
  {
    if EndsWait(start, steps[0]) then 0
    else
      assert Settles(start, steps[1..]) by {
        var i :| 0 <= i < |steps| && EndsWait(start, steps[i]);
        assert steps[1..][i - 1] == steps[i];
      }
      1 + WaitEnd(start, steps[1..])
  }

  class Agent {
    /** A verification request is outstanding (Callback_Requested). */
    var callbackRequested: bool
    /** The outstanding request's reply has been handled (Callback_Handled). */
    var callbackHandled: bool
    /** The colour the indicator LED shows. */
    var light: Light

    /** Between cycles no request is outstanding and no reply is pending. */
    ghost predicate Idle()
      reads this
    {
      !callbackRequested && !callbackHandled
    }

    /** The state once setup has finished: both flags clear, indicator aqua. */
    constructor ()
      ensures Idle() && light == Aqua
    {
      callbackRequested, callbackHandled := false, false;
      light := Aqua;
    }

    /** `callback`: the handler the transport invokes for each inbound message. */
    method Callback(topic: string, payload: string)
      modifies this
      ensures callbackRequested == old(callbackRequested)
      ensures !old(callbackRequested) ==> callbackHandled == old(callbackHandled) && light == old(light)
      ensures old(callbackRequested) ==> callbackHandled
      ensures old(callbackRequested) && topic == SubTopic ==> light == Verdict(payload)
      ensures topic != SubTopic ==> light == old(light)
    {
      if !callbackRequested {
        return;
      }
      if topic == SubTopic {
        var response := payload;
        StdString.FindAtZeroIffPrefix(response, NoMatchMarker);
        if StdString.Find(response, NoMatchMarker) == Some(0) {
          light := Red;
        } else {
          light := Green;
        }
      }
      callbackHandled := true;
    }

    /**
     * The polling wait of the main cycle: service the transport, then stop
     * with a red light once AckTimeout milliseconds have elapsed since
     * `startTime`; the loop condition is checked only after that test.
     */
    method AwaitReply(startTime: Clock, steps: seq<Step>) returns (polls: nat, timedOut: bool)
      requires callbackRequested && !callbackHandled
      requires Settles(startTime, steps)
      modifies this
      ensures polls == WaitEnd(startTime, steps) + 1
      ensures timedOut == TimedOut(startTime, steps[polls - 1].now)
      ensures callbackRequested
      ensures callbackHandled == steps[polls - 1].inbound.Some?
      ensures timedOut ==> light == Red
      ensures !timedOut ==> steps[polls - 1].inbound.Some?
      ensures !timedOut && steps[polls - 1].inbound.Some? ==>
                light == (if steps[polls - 1].inbound.value.topic == SubTopic
                          then Verdict(steps[polls - 1].inbound.value.payload) else old(light))
    {
      ghost var k := WaitEnd(startTime, steps);
      polls, timedOut := 0, false;
      while !callbackHandled
        invariant callbackRequested
        invariant !callbackHandled ==> polls <= k && light == old(light)
        invariant callbackHandled ==>
                    polls == k + 1 && steps[k].inbound.Some? && !TimedOut(startTime, steps[k].now) &&
                    light == (if steps[k].inbound.value.topic == SubTopic
                              then Verdict(steps[k].inbound.value.payload) else old(light))
        decreases |steps| - polls
      {
        var step := steps[polls];
        if step.inbound.Some? {
          Callback(step.inbound.value.topic, step.inbound.value.payload);
        }
        polls := polls + 1;
        if Elapsed(startTime, step.now) >= AckTimeout {
          light := Red;
          timedOut := true;
          break;
        }
      }
    }

    /**
     * One run of `loop` after connectivity is ensured: sample the distance,
     * and inside the capture window take a frame; when one was taken, publish
     * it, arm the request whatever the publish result, await the reply, clear
     * both flags and keep the 5 s quiet period. `late` is what the transport
     * delivers when it is serviced once more at the end of the cycle.
     */
    method Loop(pulseWidth: nat, captured: bool, sent: bool, startTime: Clock, steps: seq<Step>,
                late: Option<Message>)
      returns (r: Cycle, distance: int, delayMs: nat)
      requires Idle()
      requires InCaptureWindow(Sonar.GetDistance(pulseWidth)) && captured ==> Settles(startTime, steps)
      modifies this
      ensures Idle() && light == Aqua
      ensures distance == Sonar.GetDistance(pulseWidth)
      ensures r.NoCapture? <==> !InCaptureWindow(distance)
      ensures r.CaptureFailed? <==> InCaptureWindow(distance) && !captured
      ensures r.Exchanged? <==> InCaptureWindow(distance) && captured
      ensures r.Exchanged? ==> r.sent == sent && r.polls == WaitEnd(startTime, steps) + 1
      ensures r.Exchanged? ==> r.timedOut == TimedOut(startTime, steps[r.polls - 1].now)
      ensures r.Exchanged? && r.timedOut ==> r.shown == Red
      ensures r.Exchanged? && !r.timedOut ==>
                steps[r.polls - 1].inbound.Some? &&
                r.shown == (if steps[r.polls - 1].inbound.value.topic == SubTopic
                            then Verdict(steps[r.polls - 1].inbound.value.payload) else White)
      ensures delayMs == SampleTime + (if r.Exchanged? then QuietPeriod else 0)
    {
      light := Blue;
      distance := Sonar.GetDistance(pulseWidth);
      r, delayMs := NoCapture, 0;
      if distance >= MinCaptureDist && distance <= MaxCaptureDist {
        light := White;
        if captured {
          // beginPublish / write / endPublish: `sent` is only reported
          callbackRequested := true;
          var polls, timedOut := AwaitReply(startTime, steps);
          r := Exchanged(sent, polls, timedOut, light);
          callbackHandled := false;
          callbackRequested := false;
          delayMs := delayMs + QuietPeriod;
        } else {
          r := CaptureFailed;
        }
      }
      if late.Some? {
        Callback(late.value.topic, late.value.payload);
      }
      delayMs := delayMs + SampleTime;
      light := Aqua;
    }
  }

  /** The invalid reading never falls in the capture window. */
  lemma InvalidNeverCaptures()
    ensures !InCaptureWindow(Sonar.Invalid)
  {
  }

  /** In terms of the echo pulse, a capture is attempted exactly for widths 1450 up to 2377 microseconds. */
  lemma CaptureWindowInPulses(pulseWidth: nat)
    ensures InCaptureWindow(Sonar.GetDistance(pulseWidth)) <==> 25 * 58 <= pulseWidth < 41 * 58
  {
  }

  /** The negative verdict is a prefix test: `find` must report position 0. */
  lemma VerdictIsPrefixTest(payload: string)
    ensures Verdict(payload) == Red <==> StdString.Find(payload, NoMatchMarker) == Some(0)
    ensures Verdict(payload) == Red || Verdict(payload) == Green
  {
    StdString.FindAtZeroIffPrefix(payload, NoMatchMarker);
  }

  /** A payload that contains the marker later on still yields green. */
  lemma MarkerLaterIsGreen()
    ensures StdString.Contains("OK: NO MATCH", NoMatchMarker)
    ensures Verdict("OK: NO MATCH") == Green
  {
    assert StdString.OccursAt("OK: NO MATCH", NoMatchMarker, 4);
    assert "OK: NO MATCH"[1] != NoMatchMarker[1];
  }

  /** At 29 999 ms the wait goes on; at 30 000 ms it times out. */
  lemma TimeoutBoundary(start: Clock)
    ensures !EndsWait(start, Step(None, (start + 29999) % ClockModulus))
    ensures TimedOut(start, (start + 30000) % ClockModulus)
  {
  }

  /**
   * Readings taken `d` milliseconds apart (d below 2^32) are `d` apart by
   * unsigned subtraction even when the counter wrapped in between, so a
   * wrap does not shorten the timeout.
   */
  lemma ElapsedAcrossWrap(t0: nat, d: nat)
    requires d < ClockModulus
    ensures Elapsed(t0 % ClockModulus, (t0 + d) % ClockModulus) == d
    ensures TimedOut(t0 % ClockModulus, (t0 + d) % ClockModulus) <==> d >= AckTimeout
  {
  }

  /** A reply handled in the same step in which the timeout is reached still leaves the light red. */
  method ReplyAtTimeoutIsRed() returns (polls: nat, shown: Light, handled: bool)
    ensures polls == 1 && handled && shown == Red
  {
    var agent := new Agent();
    agent.callbackRequested := true;
    var steps := [Step(Some(Message(SubTopic, "OK: person-42")), 30000)];
    assert EndsWait(0, steps[0]);
    var timedOut;
    polls, timedOut := agent.AwaitReply(0, steps);
    shown, handled := agent.light, agent.callbackHandled;
  }

  /** Readings of 10, 30 and 45 cm: only the 30 cm one leads to a capture and an exchange. */
  method ThreeReadings() returns (r10: Cycle, r30: Cycle, r45: Cycle)
    ensures r10 == NoCapture && r45 == NoCapture
    ensures r30.Exchanged? && r30.shown == Green
  {
    var agent := new Agent();
    var reply := [Step(None, 100), Step(Some(Message(SubTopic, "OK: person-42")), 200)];
    assert EndsWait(0, reply[1]);
    var d, ms;
    r10, d, ms := agent.Loop(10 * 58, true, true, 0, reply, None);
    r30, d, ms := agent.Loop(30 * 58, true, true, 0, reply, None);
    assert !EndsWait(0, reply[0]);
    assert "NO MATCH"[0] != "OK: person-42"[0];
    r45, d, ms := agent.Loop(45 * 58, true, true, 0, reply, None);
  }

  /** A reply arriving while no request is outstanding is dropped. */
  method UnsolicitedReplyDropped() returns (handled: bool, shown: Light)
    ensures !handled && shown == Aqua
  {
    var agent := new Agent();
    agent.Callback(SubTopic, "NO MATCH");
    handled, shown := agent.callbackHandled, agent.light;
  }
}
