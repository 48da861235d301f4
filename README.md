# MagLev joystick — a Dafny model

MagLevJoystick is a magnetically levitated two-axis joystick. A Teensy
firmware reads two infrared sensors. It turns the readings into two estimated
heights using fitted degree-2 polynomials (the "virtual time-of-flight"
estimators). It rotates the height errors from the oblique sensor axes (U, V)
into the magnet axes (X, Y) and runs a PID controller per axis. The derivative
is low-pass filtered and the integral is clamped. The controller's Y signal
drives a pair of opposing electromagnets through H-bridges. A serial command
switches between stabilisation telemetry and a calibration stream. The
calibration stream also carries exponentially smoothed readings from two
time-of-flight range sensors.

On the host side, Python scripts do the rest:

- one logs the calibration stream to a CSV file;
- one fits the estimators and generates the C header holding them;
- one loads the CSV for plotting;
- a small API class reads `POS:x,y` lines and sends `SETF:fx,fy` force
  commands.

Three other sketches are modelled too: a bench-test integer proportional
controller with a safety band, a sway demo, and a magnet wiring test.

The model has one module per concern:

| module | file | models |
|---|---|---|
| `Wrappers` | wrappers.dfy | `Option` |
| `Arith` | arith.dfy | `abs`, `constrain`, `round`, C truncation and division |
| `Text` | text.dfy | whitespace stripping (C `String::trim`, Python `str.strip`), `split`, `join`, `count`, `replace`, `int`/`str` of integers |
| `Actuation` | actuation.dfy | `setPower`: the float one (firmware, demo) and the integer one (bench tests) |
| `Transform` | transform.dfy | `uvToXY` |
| `Pid` | pid.dfy | the per-axis controller, filtered and unfiltered |
| `VirtualTof` | virtual_tof.dfy | `get_t1_est`, `get_t2_est` and the demo's inline estimators |
| `Stabilizer` | stabilizer.dfy | the firmware `loop()`: a pure `Cycle` and a `Firmware` class over its globals |
| `SwayDemo` | sway_demo.dfy | the sway demo `loop()` |
| `ProportionalTest` | proportional.dfy | the integer proportional bench test |
| `MagnetTest` | magnet_test.dfy | the magnet wiring test, as a trace of `setPower` calls |
| `JoystickApi` | joystick_api.dfy | `MagLevJoystick2D` as a `Joystick` class |
| `DataLogger` | data_logger.dfy | `collect_data` |
| `Correlator` | correlator.dfy | `get_formula_str` and `derive_functions` |
| `DataPlotter` | data_plotter.dfy | `plot_data`'s loading and outcome |

`float` is modelled as `real`.

Hardware reads, the clock, the serial port, Python's float parsing and
formatting, and the regression fit are all parameters or inputs:

- the sensor readings, the serial line and the sway value are fields of each
  cycle's input;
- `float` text parsing is a function `string -> Option<real>`;
- `.Nf` formatting is a function `(real, nat) -> string`;
- the fitted regressions are `Model` values.

## Where the code and the design description differ

The model follows the code in each of these places.

- The firmware `src/main.cpp` runs one sequential loop. It neither reads
  `SETF:`/`F:` force commands nor prints `POS:` lines. The only serial
  commands it handles are `CAL_ON` and `CAL_OFF`.
- Only the front and back magnets are driven (from the Y signal). The left
  and right writes are commented out in the firmware, and the X signal goes
  only to telemetry.
- The firmware has no sensor safety band (that check is commented out). The
  level-triggered cut-off exists only in the integer bench test, with the
  band [10, 2000].
- A zero power writes 0 to both terminals. So "exactly one terminal is
  nonzero" holds only for non-zero duties. The model states "at most one"
  (`Exclusive`).
- The derivative filter converges to 0 under a held error for every `alpha`
  in (0, 1], the range the firmware's 0.1 and 0.05 lie in. With `alpha = 0`
  it would not converge.

## Model

| member | source | states |
|---|---|---|
| Actuation.SetPower | src/main.cpp:70-81 | Both duties lie in [0, 255] and at most one terminal is driven. A non-negative power drives `rpwm` and a negative one `lpwm`. The duty is within half a unit of the power's magnitude below 254.5, and saturates at 255 from 254.5 on. |
| Actuation.SetPowerInt | backups/stabilization_test.cpp:26-35 | The duty is the power's magnitude capped at 255, on `rpwm` for a non-negative power and on `lpwm` for a negative one, never on both. |
| Actuation.SetPowerIntAgrees | backups/magnet_test.cpp:19-28 | On whole numbers the integer `setPower` of the bench sketches and the float one of the firmware write the same duties. |
| Actuation.SetPowerIntForward | backups/magnet_test.cpp:21-23 | A power in [0, 255] is written unchanged to `rpwm`, with `lpwm` at 0. |
| Actuation.SetPowerIntReverse | backups/magnet_test.cpp:24-27 | A power in [-255, -1] is written, negated, to `lpwm`, with `rpwm` at 0. |
| Actuation.SetPowerZero | src/main.cpp:71-80 | Zero power switches both terminals off, in both versions. |
| Actuation.SetPowerNegated | src/main.cpp:239-240 | Driving with `-s` puts the same duty as `s` on the opposite terminal, so front and back push and pull together. |
| Transform.RotationInvertible | src/main.cpp:85-90 | The U/V error can be recovered exactly from the rotated X/Y error, so no information is lost. |
| Transform.AxesOrthogonal | src/main.cpp:83-90 | The images of the U and V unit vectors are orthogonal. |
| Transform.RotationLinearAndConformal | src/main.cpp:85-90 | The rotation is linear and scales every squared length by the same factor 2·0.7071² (0.99998 rather than exactly 1). |
| Pid.IntegralStep | src/main.cpp:209-210 | The new integral always lies in ±maxIntegral, and equals `integral + error·dt` whenever that sum lies in the band. |
| Pid.LowPass | src/main.cpp:212-216 | For a weight in [0, 1] the filtered derivative lies between the previous one and the raw one. A zero raw derivative scales the previous value by `1 - alpha`. |
| Pid.FilteredStep | src/main.cpp:209-220 | One cycle of the filtered controller keeps the integral within ±maxIntegral and remembers this cycle's error. Its signal is the PID sum of the error, the stored integral and the stored filtered derivative. |
| Pid.PlainStep | examples/demo_sway.cpp:146-158 | One cycle of the unfiltered controller keeps the integral within ±maxIntegral and remembers this cycle's error. Its signal is the PID sum of the error, the stored integral and the error's raw change since the last cycle. |
| Pid.PlainIsUnfiltered | examples/demo_sway.cpp:147-151 | The demo's unfiltered controller gives the same signal and state as the firmware's filtered one with `alpha = 1`. |
| Pid.HeldIntegralSaturates | src/main.cpp:209-210 | Under a held error the integral after `n` cycles is the clamp of `start + n·error·dt`. It grows linearly until it meets ±maxIntegral, then stays there. |
| Pid.HeldDerivativeGeometric | src/main.cpp:212-216 | Under a held error the filtered derivative after `n` cycles is the initial one times `(1 - alpha)^n`. The stored error stays the held one. |
| Pid.DecayBound | src/main.cpp:213-216 | For `alpha` in (0, 1], `(1 - alpha)^n` times a value, scaled by `1 + n·alpha`, is no larger in magnitude than the value. |
| Pid.HeldDerivativeVanishes | src/main.cpp:212-216 | Under a held error, \|derivative after n cycles\| · (1 + n·alpha) ≤ \|initial derivative\|, so the derivative tends to 0 for every `alpha` in (0, 1]. |
| VirtualTof.GetT1Est | src/virtual_tof_coeffs.h:8-12 | At zero readings the T1 estimate is the header's intercept. |
| VirtualTof.GetT2Est | src/virtual_tof_coeffs.h:14-18 | At zero readings the T2 estimate is the header's intercept. |
| VirtualTof.EvalDeterminesCoefficients | src/virtual_tof_coeffs.h:8-18 | A degree-2 estimator's six coefficients are recovered exactly from its values at six points. Each term of the header contributes as its coefficient says. |
| VirtualTof.AgreeingEstimatorsHaveSameCoefficients | src/virtual_tof_coeffs.h:8-18 | Two estimators that agree on every reading pair have identical coefficients. |
| VirtualTof.EstimatesAtOrigin | src/virtual_tof_coeffs.h:11-17 | The header's and the sway demo's estimators return their intercepts (-35.001870, 139.873197, -4.705125, 327.215778) at the origin. |
| Stabilizer.ApplyCommand | src/main.cpp:166-176 | After trimming, `CAL_ON` turns calibration on and `CAL_OFF` turns it off, each with its mode message. Any other line, or no line, changes nothing and prints nothing. |
| Stabilizer.CommandToleratesPadding | src/main.cpp:167-168 | Surrounding whitespace, such as a Windows `\r`, does not stop `CAL_ON`/`CAL_OFF` from switching the mode. |
| Stabilizer.ErrorUV | src/main.cpp:195-203 | Each sensor-axis error is positive exactly when its estimated height is beyond its target (48.6 for U, 49.0 for V). Both errors are zero exactly when both heights are on target. |
| Stabilizer.ErrorXY | src/main.cpp:206 | The magnet-axis error rotates back to exactly the sensor-axis error. |
| Stabilizer.Smooth | src/main.cpp:277-278 | The smoothed value lies between the previous value and the new sample, and a sample equal to the previous value changes nothing. |
| Stabilizer.SmoothRange | src/main.cpp:262-274 | A range reading with a bad status leaves the smoothed value unchanged. A good one pulls it toward `range + offset`. |
| Stabilizer.SmoothAll | src/main.cpp:258-278 | Sensor smoothing leaves the controller state and the calibration flag untouched. |
| Stabilizer.CycleOn | src/main.cpp:164-292 | For a given rotated error, one pass does the following. Each integral is one clamped step of its error and stays within ±500. Each axis stores its error, plus the low-pass filter of the error's change (alpha 0.1 for X, 0.05 for Y). Front and back get in-range, single-terminal duties that mirror each other. The calibration flag is the one the command sets. The two ranges and the two infrared readings are smoothed towards their new readings, and a range with a bad status leaves its smoothed value unchanged. |
| Stabilizer.CycleDrives | src/main.cpp:222-240 | The back magnet is set to the Y PID sum of the error, the stored integral and the stored filtered derivative, and the front magnet to its negation. |
| Stabilizer.Cycle | src/main.cpp:164-292 | A pass at the error estimated from the two infrared readings does the following. It keeps both integrals within ±500 and stores the rotated errors and their low-pass filtered changes. It drives front and back with in-range, single-terminal duties that mirror each other. The new calibration flag is the one the command sets. |
| Stabilizer.ModeDoesNotAffectControl | src/main.cpp:243-289 | The calibration flag and the serial command affect only the printed lines. Drives and all other state come out the same. |
| Stabilizer.TelemetryFollowsMode | src/main.cpp:243-289 | Each pass prints the mode message if a `CAL_ON` or `CAL_OFF` line arrived, then exactly one more line: diagnostics in stabilisation mode, or the calibration sample in calibration mode. |
| Stabilizer.HeldErrorDampsDerivative | src/main.cpp:212-230 | With an unchanged error the stored derivatives become 0.9× (X) and 0.95× (Y) the previous ones, and never grow in magnitude. |
| Stabilizer.Run | src/main.cpp:164-292 | A run of passes produces one output per input. |
| Stabilizer.ModeNeverAffectsDrives | src/main.cpp:239-240 | Over any number of passes, toggling calibration at any time never changes what the magnets are driven with or the controller state. |
| Stabilizer.IntegralsStayBounded | src/main.cpp:209-224 | From any state within ±500, both integrals stay within ±500 over every run. |
| Stabilizer.Firmware.constructor | src/main.cpp:40-62 | The globals start at 0 in stabilisation mode. |
| Stabilizer.Firmware.HandleCommand | src/main.cpp:166-176 | Updates only the calibration flag, as `ApplyCommand` says, and returns its message. |
| Stabilizer.Firmware.UpdateX | src/main.cpp:208-220 | Updates only the X integral, last error and filtered derivative, as one filtered PID step with alpha 0.1, and returns its signal. |
| Stabilizer.Firmware.UpdateY | src/main.cpp:222-234 | Updates only the Y integral, last error and filtered derivative, as one filtered PID step with alpha 0.05, and returns its signal. |
| Stabilizer.Firmware.SmoothSensors | src/main.cpp:258-278 | Updates only the four smoothed values, as `SmoothAll` says. |
| Stabilizer.Firmware.Loop | src/main.cpp:164-292 | Updating the globals in place gives exactly the state and output of `Cycle`. |
| SwayDemo.SwayErrorUV | examples/demo_sway.cpp:122-142 | The sway shifts U's target up and V's down by the same amount: the sum of the errors does not depend on it, and their difference drops by twice the sway. |
| SwayDemo.SwayErrorXY | examples/demo_sway.cpp:144 | The magnet-axis error rotates back to exactly the sway-shifted sensor-axis error. |
| SwayDemo.SwayMovesOnlyY | examples/demo_sway.cpp:137-144 | The sway leaves the X error unchanged and shifts the Y error by -2·0.7071·sway. |
| SwayDemo.DemoStep | examples/demo_sway.cpp:146-164 | For a given rotated error, each integral is one clamped step of its error and stays within ±500, and each axis stores its error. All four magnets get in-range, single-terminal duties, with front/back and left/right mirrored. |
| SwayDemo.DemoDrives | examples/demo_sway.cpp:146-164 | Back and front get the Y PID sum and its negation; left and right get the X PID sum and its negation. Each sum is over the error, the new integral and the error's raw change. |
| SwayDemo.DemoCycle | examples/demo_sway.cpp:118-164 | A pass at the sway-shifted error from the two infrared readings keeps both integrals within ±500 and stores the rotated errors. It drives all four magnets with in-range, single-terminal duties, front/back and left/right mirrored. |
| SwayDemo.SwayLeavesXAlone | examples/demo_sway.cpp:146-164 | Whatever the sway, the X state and the left and right drives are the same as without sway. |
| SwayDemo.Demo.constructor | examples/demo_sway.cpp:53-54 | The demo's integrals and last errors start at 0. |
| SwayDemo.Demo.UpdateX | examples/demo_sway.cpp:146-151 | Updates only the X integral and last error, as one unfiltered PID step, and returns its signal. |
| SwayDemo.Demo.UpdateY | examples/demo_sway.cpp:153-158 | Updates only the Y integral and last error, as one unfiltered PID step, and returns its signal. |
| SwayDemo.Demo.Loop | examples/demo_sway.cpp:118-164 | Updating the globals in place gives exactly the state and drives of `DemoCycle`. |
| ProportionalTest.ArduinoMap | backups/stabilization_test.cpp:56 | Arduino `map` sends the input range's ends to the output range's ends. |
| ProportionalTest.Position | backups/stabilization_test.cpp:54-56 | The front calibration reading maps to -100 and the back one to 100. |
| ProportionalTest.PositionCalibration | backups/stabilization_test.cpp:4-6 | The calibration points give -100, 0 and 100. The band edges give 178 and -105, and a zero reading -107, so positions are not clamped to ±100. |
| ProportionalTest.PositionMonotone | backups/stabilization_test.cpp:56 | A larger reading never gives a smaller position. |
| ProportionalTest.ControlSignal | backups/stabilization_test.cpp:59-61 | The signal lies in ±255 and has the position's sign. Below the cap it is 1.5 × position truncated toward zero, and from the cap on it is ±255. |
| ProportionalTest.ControlSignalTruncates | backups/stabilization_test.cpp:60 | The integer computation equals the float product `position * 1.5` truncated by the `(int)` cast, then constrained. |
| ProportionalTest.LoopSafety | backups/stabilization_test.cpp:63-79 | Out of the band [10, 2000] both magnets are off. Inside it front and back get the same drive, `setPower` of the control signal. The plotter line carries the control signal either way. |
| ProportionalTest.DriveDirection | backups/stabilization_test.cpp:70-78 | Inside the band, a reading on the front side of the centre energises `lpwm` and one on the back side `rpwm`. At the centre both terminals are off. |
| ProportionalTest.SaturatesAtBandEdge | backups/stabilization_test.cpp:61-65 | At the band's upper edge the drive is saturated at 255. Just outside either edge the magnets are off. |
| ProportionalTest.NoLatch | backups/stabilization_test.cpp:51-90 | Each pass depends only on its own reading, so the cut-off is level-triggered and a reading back in the band drives the magnets again. |
| MagnetTest.PassOver | backups/magnet_test.cpp:48-69 | A pass makes four calls per magnet. |
| MagnetTest.SetupCalls | backups/magnet_test.cpp:39-44 | Setup makes one call per magnet. |
| MagnetTest.Setup | backups/magnet_test.cpp:39-44 | The `setup()` loop makes exactly the calls `SetupCalls` describes. |
| MagnetTest.PulseDrives | backups/magnet_test.cpp:54-67 | `setPower(m, 150)` drives `rpwm` at 150, `setPower(m, -150)` drives `lpwm` at 150, and `setPower(m, 0)` switches both off. |
| MagnetTest.SetupSwitchesAllOff | backups/magnet_test.cpp:39-44 | Setup switches every magnet off, each exactly once, in array order. |
| MagnetTest.LoopPass | backups/magnet_test.cpp:47-72 | The `loop()` pass makes exactly the calls `PassOver` describes, over FRONT, BACK, LEFT, RIGHT. |
| MagnetTest.PassOverIndex | backups/magnet_test.cpp:48-69 | Call `4i + j` of a pass is the `j`-th pulse call for magnet `i`. |
| MagnetTest.PassSequence | backups/magnet_test.cpp:52-67 | Magnet `i` gets calls `4i` to `4i+3`: +150, 0, -150, 0. |
| MagnetTest.OffBeforeNextMagnet | backups/magnet_test.cpp:57-68 | Whenever consecutive calls address different magnets, the earlier call switched its magnet off. |
| MagnetTest.PassEndsOff | backups/magnet_test.cpp:66-68 | The last call of a pass switches its magnet off. |
| JoystickApi.IntTextHasNoSeparator | python/maglev_api.py:41 | `str` of an integer contains neither `:` nor `,`. |
| JoystickApi.TaggedFields | python/maglev_api.py:28 | The fields of `<tag>:<body>` are the comma pieces of the body up to its first colon. |
| JoystickApi.OnlyPosLinesMove | python/maglev_api.py:26-30 | Only `POS:` lines move the stored position. `_y` changes only when both fields parse as integers, with `_x` set from the first. |
| JoystickApi.PosLineRead | python/maglev_api.py:27-30 | A `POS:a,b` line stores `(a, b)` whatever was stored before. Extra comma fields and anything after a second colon are ignored. |
| JoystickApi.TaggedPairFields | python/maglev_api.py:28 | The fields of a `<tag>:a,b` line are exactly the texts of `a` and `b`. |
| JoystickApi.PosLineReceived | python/maglev_api.py:26-30 | A `POS:a,b\r\n` line as received stores `(a, b)`. |
| JoystickApi.MissingSecondField | python/maglev_api.py:28-32 | A `POS:` line without a second field updates `_x` only. |
| JoystickApi.BadSecondField | python/maglev_api.py:29-32 | A `POS:` line whose second field is not an integer updates `_x` only. |
| JoystickApi.OtherLinesIgnored | python/maglev_api.py:23-32 | Lines that are not `POS:` lines never move the stored position. |
| JoystickApi.LastPositionWins | python/maglev_api.py:23-32 | After a complete `POS:a,b` line the stored position is `(a, b)`, whatever came before. |
| JoystickApi.ForceMessageRoundTrip | python/maglev_api.py:38-42 | Reading a force message back gives exactly the two force components truncated toward zero. |
| JoystickApi.IntegerForceSentExactly | python/maglev_api.py:41 | Integer forces, such as the spring demo's `-x * 2`, are sent unchanged. |
| JoystickApi.ReleaseMessage | python/maglev_api.py:44-48 | The release message `close` sends is `SETF:0,0\n`. |
| JoystickApi.Joystick.constructor | python/maglev_api.py:9-21 | The position starts at (0, 0) and the reader is running. The object is connected exactly when opening the port succeeded. Nothing has been sent. |
| JoystickApi.Joystick.GetPosition | python/maglev_api.py:34-36 | Returns the pair last stored. |
| JoystickApi.Joystick.ReceiveLine | python/maglev_api.py:25-32 | Updates only the stored position, to what handling the received line gives. |
| JoystickApi.Joystick.ReadLoop | python/maglev_api.py:23-32 | While running and connected, the stored position becomes the fold of the line handler over the received lines, in arrival order. Otherwise it is unchanged. |
| JoystickApi.Joystick.SetForce | python/maglev_api.py:38-42 | Appends the force message only when connected with the port open. It sends nothing without a port, reports the exception on a closed one, and changes nothing else. |
| JoystickApi.Joystick.Close | python/maglev_api.py:44-48 | Stops the reader. When connected with the port open, it sends the release message and then closes the port. Otherwise it sends nothing. |
| DataLogger.RecordsAreRecords | python/data_logger.py:36-38 | Every logged line has exactly three commas. |
| DataLogger.CaptureStep | python/data_logger.py:27-40 | One loop pass: an interrupt ends the capture, and an idle pass or a non-record line writes nothing. A record is written first and counts one sample. |
| DataLogger.CaptureUnlimited | python/data_logger.py:31-38 | Without a limit (`None` or 0) every record before an interrupt is written, in arrival order. |
| DataLogger.CaptureLimited | python/data_logger.py:31-38 | With a limit, the records are written in arrival order, as many as the limit leaves room for. |
| DataLogger.CaptureRespectsLimit | python/data_logger.py:31-32 | With a limit, at most that many records are written. |
| DataLogger.WithNewlinesElements | python/data_logger.py:37 | The file gets one line per record, the record followed by a newline. |
| DataLogger.CollectData | python/data_logger.py:10-47 | When the port fails to open, returns False and writes no file. Otherwise returns True, writes the header followed by the captured records, and counts exactly those samples. |
| Correlator.FormatFeaturePlain | python/correlator.py:19-20 | A feature name with no space, `^2` or `s1s2` is used as it is. |
| Correlator.S1SquareRewritten | python/correlator.py:19 | `s1^2` becomes `s1_sq`. |
| Correlator.S2SquareRewritten | python/correlator.py:19 | `s2^2` becomes `s2_sq`. |
| Correlator.ProductSpaced | python/correlator.py:19 | Each space of `s1 s2` becomes ` * `. |
| Correlator.ProductRewritten | python/correlator.py:19-20 | `s1 s2` becomes the C product `s1 * s2`. |
| Correlator.VariablesRewritten | python/correlator.py:19-20 | `s1` and `s2` are used as they are. |
| Correlator.FeatureNamesRewritten | python/correlator.py:16-20 | The five non-constant degree-2 features become `s1`, `s2`, `s1_sq`, `s1 * s2` and `s2_sq`, the names the generated header declares. |
| Correlator.KeptIndicesMembers | python/correlator.py:16-18 | A feature gets a term exactly when it is not the constant feature and its coefficient exceeds 1e-11 in magnitude. |
| Correlator.KeptIndicesIncreasing | python/correlator.py:16-21 | The terms follow the feature order. |
| Correlator.CoefficientTermsPaired | python/correlator.py:16-21 | There is one term per kept feature. Term `k` pairs the `k`-th kept feature's coefficient with that feature's name. |
| Correlator.FormulaShape | python/correlator.py:15-22 | The formula is the intercept term alone when no coefficient is kept. Otherwise it is the intercept, ` + `, and the kept terms joined with ` + `. |
| Correlator.FormulaStartsWithIntercept | python/correlator.py:15-22 | The formula always begins with the intercept, whatever its magnitude. |
| Correlator.InterceptOnly | python/correlator.py:15-22 | With no significant coefficient the formula is the intercept alone. |
| Correlator.GetFormulaStr | python/correlator.py:12-22 | The loop builds exactly the formula `Formula` describes. |
| Correlator.DeriveFunctions | python/correlator.py:52-82 | A missing file and a CSV without data rows each return early without writing the header. A file with no columns fails in `read_csv`, and rows that `dropna` empties fail in the fit. The header is written exactly when at least one complete row is left, with the two fits' formulas. |
| DataPlotter.FailedStays | python/data_plotter.py:15-28 | An abandoned read stays abandoned whatever rows follow. |
| DataPlotter.BadFirstFieldAddsNothing | python/data_plotter.py:19-25 | A row whose `s1` is missing or not a number adds to none of the lists. |
| DataPlotter.PartialRowAppendsPrefix | python/data_plotter.py:19-25 | A row whose `t1` fails after `s1` and `s2` converted lengthens only `s1_vals` and `s2_vals`. |
| DataPlotter.NumericRowAppendsAll | python/data_plotter.py:20-23 | A fully numeric row appends one value to each list, in field order. |
| DataPlotter.AddRowOrdered | python/data_plotter.py:19-25 | A row grows each list by at most one value and keeps `len(s1) >= len(s2) >= len(t1) >= len(t2)`. |
| DataPlotter.LoadRowsOrdered | python/data_plotter.py:18-25 | After any rows the list lengths stay ordered, with at most one value per row. |
| DataPlotter.NumericRowsAligned | python/data_plotter.py:18-25 | When every row is numeric, each list holds one value per row in file order, and index `k` of every list comes from row `k`. |
| DataPlotter.PlottedOnlyWithData | python/data_plotter.py:7-52 | Plots are drawn exactly when the file exists, is fully read, and gave at least one `s1` value. A missing file reports not found, and no values reports no data. |
| DataPlotter.PlotData | python/data_plotter.py:7-52 | The loop gives exactly the outcome `PlotResult` describes. |
| Text.StripPadded | src/main.cpp:168 | Stripping removes exactly the surrounding whitespace from a padded word. |
| Text.ParseIntToString | python/maglev_api.py:29-30 | `int` reads back exactly the integer that `str` wrote. |
| Text.ReplaceAll | python/correlator.py:19-20 | A replacement whose pattern does not occur leaves the text unchanged. |
| Text.ReplaceCharIsSplitJoin | python/correlator.py:19 | Replacing a one-character pattern equals splitting at it and joining the pieces with the replacement, so every occurrence is replaced. |

## Left out

- Hardware I/O (`analogRead`, `analogWrite`, the VL6180X driver) is modelled by its effect only. Readings are inputs, and writes are drive values or call traces.
- Pin set-up and the `setup()` of the firmware and the demo (pin modes, sensor initialisation) are not modelled.
- Delays (`delay`, `delayMicroseconds`, `time.sleep`) and loop timing are not modelled.
- The logger's clock is represented by the end of the event sequence.
- The printed text of telemetry and status messages is not modelled. Lines are recorded by content (`Telemetry`), and bench-test prints and the sway demo's `millis() % 20` debug output are left out.
- The sway value `sin(millis() · 2π · 0.4) · 40` is an input, because the clock and `sin` are outside the model.
- Single-precision float rounding is not modelled: `float` arithmetic is exact `real` arithmetic, so `0.7071f` and the coefficients are taken at their decimal values.
- Python's `float` text parsing and `.Nf` formatting are parameters, because their digit-level behaviour is library code outside the model.
- The regression fit (`PolynomialFeatures`, `LinearRegression`) is an input. `FitFromSamples` checks only that coefficients are determined by evaluation.
- The `R^2` printout, the header's timestamp text and the file write of `generate_header` are not modelled. `DeriveFunctions` reports the two formulas it would write. `dropna` is modelled only by the number of rows it keeps.
- Correlator.DeriveFunctions: a CSV lacking one of the `s1`, `s2`, `t1` and `t2` columns (a `KeyError`), and text values the fit cannot convert, are not modelled, because the fits are inputs.
- matplotlib plotting and the correlator's optional plots are left out. `PlotData` ends with the lists that would be plotted.
- The reader thread of the joystick API and its concurrency are not modelled. `ReadLoop` handles the delivered lines in order.
- `Joystick.ReceiveLine` writes the two stores of a `POS:` line together at the end. Nothing observes the state between them once the thread is left out.
- UTF-8 decoding of the joystick API and the logger is outside the model: lines arrive as decoded strings. A decode error in `_read_loop` is handled like any other exception, by skipping the line.
- ProportionalTest.ArduinoMap: computes on unbounded integers, not on the 32-bit `long` of Arduino's `map`. This is harmless for 12-bit readings (0 to 4095) mapped from 50..1450 onto -100..100: the intermediate product stays below 10^6.
- Python `int()` is modelled on an optional sign and ASCII digits with surrounding whitespace. Underscores and non-ASCII digits are not accepted.
- Caught exceptions are modelled: the port failing to open in `__init__` and `collect_data`, `KeyboardInterrupt`, and `ValueError`/`KeyError` and `TypeError` in `plot_data`. Three uncaught ones are modelled as outcomes: `ReadFailed` and `FitFailed` of `DeriveFunctions`, and `PortClosed` of `SetForce`. Other uncaught exceptions, such as failing to open the logger's output file, are not modelled.
- The `calibrate.py` and `stop_logic.cpp` files are not part of this model.
