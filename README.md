# Capture-and-verify device: verified model of its core

This project models, in Dafny, the decision logic of an ESP32 camera device
that measures the distance to an object with an ultrasonic ranger, takes a
picture when the object is 25 to 40 cm away, publishes the frame over MQTT,
and waits up to 30 seconds for a verdict on the `Result` topic, which it shows
on an RGB indicator LED (red for "NO MATCH", green otherwise, red on timeout).

Three parts are modelled, one module each:

- `Sonar` (src/Sonar.cpp): the conversion of the echo pulse width in
  microseconds into centimetres (integer division by 58) and the validity
  window [0, 400] with the sentinel -1. Pure functions and lemmas.
- `LED` (src/LED.cpp): the three PWM channel duty values as a class `RgbLed`
  holding an `array<nat>` of length 3, with `On`, `Off` and `Toggle` as
  methods that write it in place, and the predefined colours.
- `Main` (src/main.cpp): the reply handler `callback` and the body of
  `loop()` as a class `Agent` holding the two global flags
  `Callback_Requested` / `Callback_Handled` and the indicator colour (an
  enumerated `Light`). The polling wait is a `while` loop over an injected
  sequence of steps, each being the message the transport delivered (if any)
  followed by a reading of the 32-bit millisecond clock. Elapsed time is
  unsigned subtraction modulo 2^32.

Two helper modules: `Wrappers` (an `Option` type) and `StdString`, a model of
`std::string::find` (first occurrence, `None` standing for `npos`), which the
reply handler relies on.

Inputs replacing hardware and I/O: the echo pulse width, whether
`Camera_Capture` produced a frame, whether `endPublish` reported success, the
clock value read at arming (`startTime`), the polling steps, and the message
delivered when the transport is serviced once more at the end of the cycle.

Facts about the code that the model keeps:

- The negative verdict is a prefix test: `!response.find("NO MATCH")` holds
  only when `find` returns 0 (src/main.cpp:57). `Main.VerdictIsPrefixTest`
  and `Main.MarkerLaterIsGreen` state this.
- The capture window is the constant pair 25 / 40 (src/main.cpp:31-32).
- The one-outstanding-request property holds structurally: `Agent.Loop`
  starts and ends with both flags clear (`Agent.Idle`).
- The wait loop checks the timeout after servicing the transport and before
  re-testing `Callback_Handled`, so a reply handled in the same pass in which
  the timeout is reached still ends with the red light.

## Model

| member | source | states |
|---|---|---|
| `Sonar.GetDistance` | src/Sonar.cpp:24-30 | the result is -1 or lies in [0, 400]; a valid result d is the integer quotient of the pulse width by 58 (d*58 <= width < (d+1)*58) |
| `Sonar.OnlyUpperBoundRejects` | src/Sonar.cpp:27-30 | the result is -1 exactly when width/58 exceeds 400: the `duration >= 0` test never rejects |
| `Sonar.InvalidExactly` | src/Sonar.cpp:24-30 | the result is -1 exactly when the pulse width is at least 23 258 us |
| `Sonar.ZeroPulseIsZero` | src/Sonar.cpp:24-28 | a pulse width of 0 gives distance 0, not -1 |
| `Sonar.Monotone` | src/Sonar.cpp:24 | a shorter pulse than a valid one is valid too and gives a distance no larger |
| `LED.RgbLed.constructor` | src/LED.cpp:14-25 | after channel setup the three channels exist and are at duty 0, the state the PWM library leaves them in (LED_Init itself writes no duty) |
| `LED.RgbLed.On` | src/LED.cpp:27-34 | channel 0, 1, 2 hold the colour's red, green, blue, nothing else changes, and it returns true |
| `LED.RgbLed.Off` | src/LED.cpp:36-42 | every channel is at duty 0 afterwards, and it returns true |
| `LED.RgbLed.Toggle` | src/LED.cpp:44-56 | if any channel was non-zero all channels become 0, otherwise they become the colour; returns true |
| `LED.ToggleLitIsOff` | src/LED.cpp:46-51 | toggling with any channel lit leaves every channel at 0 |
| `LED.ToggleDarkIsColour` | src/LED.cpp:46-53 | toggling with every channel dark leaves exactly the colour's components |
| `LED.ToggleTwiceFromDark` | src/LED.cpp:44-56 | from dark, two toggles with a colour that has a non-zero component return to dark |
| `LED.PredefinedColoursFit` | src/LED.cpp:6-12 | blue, red, green and yellow have every component at most the largest 8-bit duty, 2^8 - 1 = 255 |
| `StdString.FindFrom` | src/main.cpp:57 | the position returned is an occurrence at or after the start and no earlier one exists; None means no occurrence |
| `StdString.Find` | src/main.cpp:57 | `find` returns a position iff the pattern occurs, and then the first occurrence |
| `StdString.FindAtZeroIffPrefix` | src/main.cpp:57 | `find` returns 0 exactly when the pattern is a prefix of the string |
| `Main.Agent.constructor` | src/main.cpp:37-38 | both flags start false (no request outstanding) |
| `Main.Agent.Callback` | src/main.cpp:41-66 | with no request outstanding nothing changes; otherwise the reply is marked handled whatever its topic, and only topic "Result" sets the light: red iff the payload begins with "NO MATCH", else green |
| `Main.WaitEnd` | src/main.cpp:193-204 | the wait ends at the first step that delivers a message or whose elapsed time reaches 30 000 ms |
| `Main.Agent.AwaitReply` | src/main.cpp:193-204 | the loop runs exactly up to that first ending step; it times out iff that step's elapsed time is at least 30 000 ms, and then the light is red even if a reply was handled in the same pass; otherwise the reply's verdict (or, for another topic, the unchanged light) is shown |
| `Main.Agent.Loop` | src/main.cpp:157-220 | a capture is attempted iff 25 <= distance <= 40; without a frame nothing is published, no flag changes and the 5 s delay is skipped; with a frame the request is armed whatever endPublish reported; afterwards both flags are false and the light is aqua |
| `Main.InvalidNeverCaptures` | src/main.cpp:166 | the invalid reading -1 is outside the capture window |
| `Main.CaptureWindowInPulses` | src/main.cpp:159-166 | a capture is attempted exactly for echo pulse widths from 1450 up to 2377 us |
| `Main.VerdictIsPrefixTest` | src/main.cpp:57-61 | the light chosen is red exactly when `find` returns 0, and is always red or green |
| `Main.MarkerLaterIsGreen` | src/main.cpp:57-61 | the payload "OK: NO MATCH", which contains the marker at position 4 but does not begin with it, gives green |
| `Main.TimeoutBoundary` | src/main.cpp:198 | at 29 999 ms elapsed the wait goes on, at 30 000 ms it times out, from any start reading |
| `Main.ElapsedAcrossWrap` | src/main.cpp:187-198 | two clock readings d ms apart (d < 2^32) give elapsed time d even across a counter wrap, so the timeout fires iff d >= 30 000 |
| `Main.ReplyAtTimeoutIsRed` | src/main.cpp:193-204 | for start reading 0 and one pass delivering the "Result" reply "OK: person-42" at clock 30 000, the wait ends after that pass with the reply handled and the light red |
| `Main.ThreeReadings` | src/main.cpp:159-212 | readings of 10, 30 and 45 cm: only 30 cm leads to an exchange, whose positive reply shows green |
| `Main.UnsolicitedReplyDropped` | src/main.cpp:45-48 | the reply "NO MATCH" on "Result" delivered to a freshly set-up agent (no request outstanding) is not handled and the light stays aqua |

## Left out

- Wi-Fi and MQTT connection, subscription and the reconnect checks at the start of `loop` (src/main.cpp:68-143, 151-155): network I/O with unbounded retry loops.
- The publish of the frame bytes (src/main.cpp:178-183): the payload is opaque; only the boolean result of `endPublish` enters the model, and it is only reported.
- `delay`, `millis` and serial logging: time is the injected clock per polling step and the start reading; the delays appear only as the total `delayMs` the cycle requests.
- src/camera.cpp is not part of this model: the capture outcome is an input. The release of the frame buffer (src/main.cpp:189) is not modelled; `Camera_FreeFrameBuffer` hands the buffer back only when the frame-buffer handle is null (src/camera.cpp:94), so the model does not assume the frame is released.
- Pulse generation and `pulseIn` (src/Sonar.cpp:15-24): the pulse width is the input, an unbounded natural rather than a 32-bit `unsigned long`; every width above 23 257 gives -1 either way.
- Pin constants and the hardware channel attachment of `LED_Init` (src/LED.cpp:14-25).
- `LED_WHITE` and `LED_AQUA` are used by src/main.cpp but not defined in src/LED.cpp; the cycle's indicator is the enumerated `Light`, not the `RgbLed` class.
- Main.Agent.AwaitReply: states the light at the end of the wait, not the short-lived verdict colour written by the reply handler in a pass that then times out.
- Main.Agent.Loop: states the light shown during the quiet period and at the end of the cycle, not every intermediate colour (blue, white) written during the cycle.
- Main.Agent.AwaitReply and Main.Agent.Loop require that the injected steps reach the end of the wait (a message or the timeout); the real clock always gets there, a finite trace need not.
