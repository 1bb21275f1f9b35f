# Recycling kiosk: scan decision, servo sequencing, run state and LED wheel

This project models the decision core of a reverse-vending kiosk that sorts a
deposited item into a plastic bin, a can bin, or leaves it as "Other". It
covers the following parts of `app.py` and `hardware/led.py`:

- **Decision** (`decision.dfy`). The classifier's argmax index becomes a label.
  The load-cell reading is clamped at its 0.5 g noise floor. The metal sensor
  is active-low. A first-match-wins chain reconciles the three: the 50 g weight
  limit comes first, then the two sensor/label mismatches. The item's mass is
  the absolute change of the scale.
- **Actuator** (`actuator.dfy`). The servo driver is a `ServoKit` object that
  records every angle write in a command log. A missing driver is `null`.
  `RunMotorSequence` and `ResetMotors` append the source's fixed write
  sequences, using channels 15 (gate) and 0 (slapper) and the calibrated
  angles.
- **Session** (`session.dfy`). The shared `state` record is the class
  `RunState`. Its fields are changed in place by the start, scan, stop and
  reset handlers. `ProcessScan` is the scan pipeline that feeds the scan
  handler. A ghost history of successful scans ties the tallies and the total
  mass to the scans since the last start.
- **Text** (`text.dfy`). Decimal rendering of integers, used for the offline
  transaction id `OFF-<seconds>`.
- **Led** (`led.dfy`). The colour wheel, and Python's `&` on non-negative
  integers. Also the fill of the 8-pixel buffer for one frame, and one
  255-frame pass of the rainbow animation, recorded frame by frame as shown.

Inputs that come from hardware, the clock or the network are parameters:
- the raw weight readings (or their absence or failure) from the HX711;
- the metal sensor pin level (or a failed read);
- the classifier's argmax index (or a failing LED flash, no frame, or a failed inference);
- whether the camera started, and whether the scale's reset and tare went through;
- the remote API's answer to START (or a failed call);
- the clock in whole seconds.

Behaviour worth noting:
- `get_weight` keeps a reading only when it is strictly above 0.5 g, so exactly
  0.5 g reads as 0.0.
- The scan handler never checks the run status. A scan in IDLE or SHOW_RESULT
  still updates the tallies, so the state is not frozen after a stop.
- The code computes no rejection reason; it only logs which branch of the
  chain fired. The model names that branch (`Reason`) next to the final label.
- Start resets and tares the scale only when it is present, and a scale that
  raises while doing so aborts the start before any field of the state is
  written. Taring itself is not modelled: it only changes later raw readings,
  and those are inputs; whether it succeeded is an input of `Start`.
- The LED flash around the frame capture runs inside the scan's error
  handler, so a failing LED aborts the scan like a failed inference.

## Model

| member | source | states |
|---|---|---|
| Decision.LabelOf | app.py:231-232 | index 0 gives Can, index 2 gives Plastic, every other index gives Other (each an if-and-only-if) |
| Decision.GetWeight | app.py:127-133 | the result is 0.0 or above 0.5 and never negative; it is non-zero exactly when a raw reading above 0.5 exists, and then it equals that reading; a missing sensor or a failed read gives 0.0 |
| Decision.GetWeightIdempotent | app.py:131 | clamping an already clamped weight changes nothing |
| Decision.IsMetalDetected | app.py:135-136 | metal is reported exactly when the pin reads 0 (active-low) |
| Decision.Decide | app.py:240-256 | above 50 g the result is Other (too heavy) whatever else holds; at most 50 g, Can without metal and Plastic with metal become Other; the label is kept exactly when weight and metal agree with it (`Sortable`); the result is always the input label or Other; an accepted Can had metal, an accepted Plastic had none |
| Decision.DecideIdempotent | app.py:240-256 | deciding again on the decided label gives the same label |
| Decision.OtherStaysOther | app.py:254-256 | an item classified Other stays Other, whatever the weight and metal flag |
| Decision.DecideExamples | app.py:240-256 | concrete decisions for each branch of the chain, including the boundary weight 50 g, which is not too heavy |
| Decision.ItemWeight | app.py:264 | item mass is non-negative, is one of the two differences, and is zero exactly when the readings agree |
| Decision.ItemWeightSymmetric | app.py:264 | item mass does not depend on the order of the two readings |
| Actuator.ServoKit.SetAngle | app.py:143 | one write to a servo channel's angle appends exactly that command (a `None` angle releases the servo) |
| Actuator.GateAngle | app.py:141 | the gate target is within the servo range and never the idle angle: 35 degrees above idle for Plastic, 35 degrees below idle otherwise |
| Actuator.SortingMoves | app.py:141-152 | an Other item causes no write at all, a Plastic or Can item at least one; every write goes to the gate (15) or the slapper (0) channel |
| Actuator.ResetMoves | app.py:120-124 | the reset issues four writes, each on the gate or the slapper channel |
| Actuator.ReleasedAppend | app.py:151-152 | a channel released by the last writes stays released whatever writes came before |
| Actuator.SortingMovesShape | app.py:138-152 | for Plastic or Can: six writes, with the gate going to its target and then to idle, the slapper going to hit and then to rest, both channels ending released, and every write on an existing channel within the servo range |
| Actuator.ResetMovesShape | app.py:117-125 | the reset writes move the gate to idle and the slapper to rest, then release both; every write is well formed |
| Actuator.RunMotorSequence | app.py:138-152 | with a driver the log grows by exactly the sorting writes (none for Other) and both servos end released; without a driver nothing is written |
| Actuator.ResetMotors | app.py:117-125 | with a driver the log grows by exactly the reset writes and both servos end released; without one nothing is written |
| Text.NatToDecimal | app.py:297 | rendering a number gives a non-empty string of decimal digits with no leading zero |
| Text.DecimalRoundTrip | app.py:297 | reading the rendered digits back gives the number |
| Text.IntToDecimal | app.py:297 | the rendering of an integer is non-empty and starts with a minus sign exactly when the integer is negative |
| Text.IntToDecimalRoundTrip | app.py:297 | reading a rendered integer, sign included, gives the integer back |
| Text.IntToDecimalInjective | app.py:297 | different integers have different renderings |
| Session.OfflineId | app.py:297 | the offline transaction id is `OFF-` followed by the decimal clock reading |
| Session.OfflineIdInjective | app.py:297 | offline ids taken at different seconds differ |
| Session.ScanResult | app.py:206-269 | a scan fails exactly when the metal read raises, the LED flash raises, no frame is captured or inference fails; otherwise its label is the decision on the clamped weight, metal flag and mapped index; its mass is the absolute change of the clamped readings, never negative; above 50 g it is Other; an accepted label is the classifier's |
| Session.ProcessScan | app.py:206-269 | the pipeline returns `ScanResult` of its inputs, and the servo log grows by exactly the sorting writes of the decided label (nothing on failure) |
| Session.TalliesPartition | app.py:308-310 | every outcome is counted in exactly one of the plastic, can and other tallies, so they sum to the number of outcomes |
| Session.TotalMassNonNegative | app.py:307 | a total of non-negative masses is non-negative |
| Session.AppendOutcome | app.py:306-310 | recording one more outcome adds one to its bin's tally and its mass to the total, which keeps the tallies exact |
| Session.StartedTransactionId | app.py:291-297 | after a start the transaction id is the remote one when the answer has it, otherwise the offline id |
| Session.StartedClaimSecret | app.py:291-297 | after a start the claim secret is unchanged when the remote call failed, the remote secret when the answer has it, otherwise "offline" |
| Session.RunState.constructor | app.py:203 | the process starts IDLE with zero tallies, last item "Ready", and no transaction id or claim secret |
| Session.RunState.Tallies | app.py:303-312 | in every reachable state the three tallies sum to the number of successful scans since the last start, and the total mass is non-negative |
| Session.RunState.Start | app.py:285-300 | the start succeeds exactly when the camera started and the scale's reset and tare went through; on failure nothing changes; otherwise status RUNNING, the four tallies are zero, the last item and weight are kept, and the transaction id and claim secret follow the remote answer |
| Session.RunState.Scan | app.py:302-312 | a successful scan sets the last item and weight, adds the mass to the total and adds one to exactly one tally; a failed scan changes nothing; the status, transaction id and claim secret never change |
| Session.RunState.Record | app.py:305-310 | the success branch of the scan handler: the state grows by exactly one outcome in the history, in its tally and in the total |
| Session.RunState.Stop | app.py:314-316 | the status becomes SHOW_RESULT and nothing else changes |
| Session.RunState.Reset | app.py:336-338 | the status becomes IDLE and nothing else changes |
| Session.ScanExamples | app.py:206-269 | concrete scans: a 5 g plastic bottle, a 7 g can, a 3 g rejected item, a 60 g can that is too heavy, a failed metal read, a failing LED flash and a missing frame |
| Session.ThreeScanRun | app.py:299-310 | a start followed by plastic 5 g, can 7 g and other 3 g gives one item per tally and 15 g in total |
| Led.Wheel | hardware/led.py:11-29 | outside 0..255 the colour is off; inside, each component lies in 0..255, the components sum to 255, and blue, green or red is zero on the first, second or third segment |
| Led.WheelNotBlack | hardware/led.py:15-28 | an in-range position never gives black |
| Led.WheelAnchors | hardware/led.py:15-28 | positions 0, 85 and 170 give pure green, red and blue, and position 255 repeats position 0 |
| Led.WheelRoundTrip | hardware/led.py:15-28 | every position in 0..254 can be read back from its colour |
| Led.WheelInjective | hardware/led.py:15-28 | two positions in 0..254 with the same colour are equal |
| Led.BitAnd | hardware/led.py:39 | a bitwise and of two naturals is at most each of them (its meaning as a mask is `Led.BitAndLowBits`) |
| Led.BitAndLowBits | hardware/led.py:39 | a bitwise and with k one-bits gives the value modulo 2 to the k |
| Led.MaskLowByte | hardware/led.py:39 | `x & 255` is `x` modulo 256, so it lies in 0..255 |
| Led.PixelIndex | hardware/led.py:38 | the wheel index of pixel i in frame j, `(i*256)//8 + j`, is exactly 32i + j |
| Led.PixelColor | hardware/led.py:38-39 | pixel i of frame j shows the wheel colour at its index modulo 256 |
| Led.FrameColors | hardware/led.py:37-39 | a frame has one colour per pixel, 8 in all; each is that pixel's colour and none is black |
| Led.PixelColorLit | hardware/led.py:38-39 | every pixel of every frame is lit, and its components sum to 255 |
| Led.PixelSpacing | hardware/led.py:38-39 | pixel i of frame j sits at wheel position (32i + j) mod 256, so neighbouring pixels are 32 steps apart |
| Led.FillFrame | hardware/led.py:37-39 | after the inner loop, pixel i holds `wheel(((i*256)//8 + j) & 255)` for every i in 0..7 |
| Led.RainbowPass | hardware/led.py:36-40 | one pass shows 255 frames, frame j is the fill for j, and afterwards the buffer holds the last frame, 254 |

## Left out

- Hardware I/O: GPIO set-up, the HX711 driver (including its averaging of five readings), the ServoKit pulse-width set-up, and NeoPixel `fill`/`show`. Their results are inputs, and servo writes are log entries.
- Timing: every `time.sleep`. The model keeps the order of the writes, not their spacing.
- The camera thread, device probing, `camera_lock` and `ai_lock`. These exist for concurrency, and the model is sequential.
- TFLite inference, cv2 colour conversion and resizing. The model takes the argmax index as an input.
- Flask routes and JSON responses, including `round(weight, 1)` in the scan response. Also the `requests` calls. The STOP report and the claim QR code and its URL are not modelled either.
- `setup_hardware`. It only initialises devices.
- `set_lights`: the colours it sends are not modelled; only whether it raised during a scan is (the `FlashFailed` capture).
- Floating point. Weights are exact reals, so NaN, infinities and rounding are not modelled.
- JSON values other than strings in the START answer. A field is either absent or a string.
- Actuator.RunMotorSequence: does not model a servo write that raises part-way through. With a driver present, every write succeeds. In the source, such an exception makes the scan fail after partial motion.
- Actuator.ResetMotors: does not model the exceptions it swallows. For the same reason, every write succeeds.
- Led.RainbowPass: models one pass. The endless repetition of `while True` and the blanking on keyboard interrupt are not modelled.
- hardware/manual_servo.py, hardware/sorter_test.py, hardware/scale.py, hardware/hardware.py, hardware/test_hardware.py, hardware/servo.py, hardware/test_sensor.py, hardware/sorter.py and test.py are not part of this model. They are interactive device scripts, and some duplicate the servo sequence with superseded constants.
