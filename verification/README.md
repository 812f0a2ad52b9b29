# Flight core of a small quadcopter: a Dafny model

The flight core reads an SBUS receiver and an IMU once per millisecond, decides whether the craft may
be armed, estimates its attitude, runs a rate or attitude controller and mixes the result onto four
motors. In software-in-the-loop (SIL) runs it is one of two processes: the plant (Python) simulates
the airframe, sends a STATE message per tick and waits for the firmware's FW_OUT. This project models
that core in Dafny and proves what its comments, documentation and tests promise.

Code that updates objects in place is modelled by classes and methods with the source's branches
(`PidUnit`, `SbusParser`, `FailsafeFsm`, `ComplementaryEstimator`, `CrcTable`, `SilHal`,
`FlightContext` with `Tick`, `FirmwareMain`). Every such method is proved equal to a step function, and
the properties are proved of runs of the step functions from boot, over every input sequence.

How the modules build on one another:

| module | content |
|---|---|
| Floats, Bytes, Ports, Vectors, Digits, Angles | special float values, bytes, shared records, norms, positional digits, angle wrapping |
| InputTerms | what the inputs mean, in fields and figures; the histories are told in these terms only |
| Mixer, Pid | desaturating mixer; PID unit, rate controller, attitude cascade |
| Plant, AttitudeLoop | rotor sums of the simulated airframe against the mixer, the rate controller and the attitude cascade |
| Crc, Wire | table-driven CRC-32 (section 8 of RFC 1952) against the bitwise definition; message framing |
| Sbus, RcParse | SBUS packing; the resynchronising stream parser |
| Estimator | gyro-bias calibration and the complementary filter |
| Failsafe, FailsafeHistory | arming state machine; the same machine told from the input history alone |
| HalSil, ControlLoop, FlightRuns | SIL hardware layer and output gate; one tick; whole runs of the loop |
| SilRunner, Lockstep, ByteLockstep, NoisyLockstep | the firmware process against any peer; both processes over two FIFO channels of messages; the same over channels of bytes; the same with datagrams damaged in flight |

## Conventions

- A float is `Fin(real) | NaN | PosInf | NegInf`. Finite arithmetic is exact: rounding, overflow and
  loops that stall on rounding are outside the model. Constants are the written decimals, except that
  pi is the binary32 value nearest to the written constant, so that two pi is exactly twice pi. Norms
  are compared through their squares, and of `atan2` only the range [-pi, pi] is used.
- Integers are unbounded except time stamps (unsigned 64 bit, with the wrapping difference written
  out), bytes and CRC words (bit-vectors), the 16-bit length field, and the lockstep run length, which
  is kept below 2^32 so that sequence numbers do not wrap.
- The failsafe reason mask is the set of its bits.
- Merging bit fields that do not overlap is addition of their weighted values; a shift followed by a
  mask is a quotient followed by a remainder.

## Where the code differs from its own words

- `firmware/main/flight/pid.hpp:50-51` says yaw is always a rate command. In attitude mode the yaw
  setpoint is zero and the yaw gain is zero, so the stick does nothing (`Pid.CascadeBounded`); when it
  commands a rate is said exactly by `ControlLoop.YawStickCommandsIff`.
- `firmware/main/flight/mixer.hpp:12-15` gives a meaning to both signs of the shift and leaves zero open.
  A zero shift also occurs when the lowest channel sits on zero and a top is about to be clipped:
  `Mixer.ShiftSign` says exactly when.
- `packMsg` accepts any payload that fits the buffer and stores its length in 16 bits. From 65536 bytes
  on the message does not unpack to what was packed: `Wire.RoundTripIff` gives the exact condition.
  The Python end raises instead: `Wire.CrossRoundTrip`. The firmware
  itself packs into a buffer of 256 bytes (`firmware/main/hal/hal_sil.cpp:66-68`) and never gets there.
- A rising arm-test request clears the latches even when a fault is live on that very tick:
  `Failsafe.StepCoherent`.
- The two ends do not receive every datagram alike. The firmware receives into 256 bytes
  (`firmware/main/hal/hal_sil.cpp:78`), the plant into 4096 (`plant/runner.py:41`), and what does not fit
  is lost: a valid message of more than 256 bytes is a message to the plant and a protocol violation to
  the firmware. `ByteLockstep.EndsReceiveAlikeIff` gives the exact condition. The messages of the protocol
  are at most 102 bytes long.
- A chunk that does not fit the parser's buffer behind the unread tail resets it. Chunks of up to n bytes
  are safe under every way of cutting the stream if and only if n is at most 40
  (`RcParse.ChunkBoundIff`); a single call resumes the scan if and only if its chunk is not empty and fits
  (`RcParse.FeedResumesIff`). The SIL layer delivers at most 32 bytes per tick.
- The `tick` field of FW_OUT is never written and stays zero: `SilRunner.EveryReportSafe`.
- The sign contract holds for single-axis commands and for the largest of several, clipped or not
  (`Plant.SingleAxisSigns`, `Plant.LargestAxisSigns`). Thrust goes with the square of the duty, so a
  strictly smallest command, and only that one (`Plant.OnlySmallestReverses`), can turn the craft the other
  way (`Plant.SmallerAxisMayReverse`). The exact condition for each axis is `Plant.AxisSignsIff` where
  nothing clips and `Plant.ClippedAxisSigns` where something does, in closed form for the smallest axis:
  `Plant.SmallestClippedIff`.
- A plant whose firmware leaves during the last tick exits cleanly although the last report is missing
  (`plant/runner.py:149-153`): `NoisyLockstep.NoisyLockstepSafety`.

## Model

| member | source | states |
|---|---|---|
| Mixer.Desaturate | firmware/main/flight/mixer.cpp:14-26 | the in-place loops leave every channel moved by one shift, which is max(-lo, min(0, 1-hi)) |
| Mixer.Write | firmware/main/flight/mixer.cpp:28-43 | the motor commands and the shift returned, for every float including NaN and infinities |
| Mixer.Spread | firmware/main/flight/mixer.cpp:34-38 | before the shift the channels are apart by twice the sum of the two largest axis magnitudes, whatever the throttle |
| Mixer.FitsIff | firmware/main/flight/mixer.cpp:40-41 | the final clamp is the identity exactly when the two largest axis commands sum to at most one half |
| Mixer.LeastShift | firmware/main/flight/mixer.cpp:22-25 | if any uniform shift fits the channels in [0, 1], the chosen one does, and none is smaller in magnitude |
| Mixer.CommandsPreserved | firmware/main/flight/mixer.hpp:4-15 | when nothing clips, reading the four motors back through the sign table returns the three axis commands and the shifted collective |
| Mixer.SaturatedLaw | firmware/main/flight/mixer.cpp:22-41 | out of room: the lowest motor is exactly 0, the highest exactly 1, only tops are clipped, and the order of the motors is kept |
| Mixer.ShiftSign | firmware/main/flight/mixer.hpp:12-15 | what each sign of the shift means, and exactly when it is zero |
| Mixer.ClampLaw | firmware/main/flight/mixer.cpp:7-12 | a command that is no number counts as zero, any other is cut at the nearer bound |
| Pid.PidUnit.Step | firmware/main/flight/pid.cpp:31-56 | new state and output of one step, non-finite inputs and a non-positive period included |
| Pid.RunMirrors | firmware/main/flight/pid.cpp:31-56 | over any run: negated setpoints and measurements with exchanged saturation flags negate every state and output |
| Pid.SetpointNeverReachesD | firmware/main/flight/pid.cpp:35-42 | no derivative kick: two runs with equal measurements and any finite setpoints have equal derivative state |
| Pid.MeasPrevIsLatest | firmware/main/flight/pid.cpp:37-39 | the remembered measurement is that of the latest accepted input, and there is one exactly after the first such input |
| Pid.DStateBounded | firmware/main/flight/pid.cpp:36-41 | the filtered derivative never exceeds the steepest measured slope of the run |
| Pid.IntegralLaw | firmware/main/flight/pid.cpp:44-50 | one conditional integration stays in its limit and never moves into a reported saturation |
| Pid.OutputMonotone | firmware/main/flight/pid.cpp:31-56 | from every clamped state, under every report of saturation: a larger setpoint never lowers the output, a larger measurement never raises it |
| Pid.IntegralIsArea | firmware/main/flight/pid.cpp:44-50 | over an unsaturated run that stays within the limit the integral is ki times the area under the error |
| Pid.RampResponse | firmware/main/flight/pid.cpp:35-41 | on a ramp the filtered derivative approaches the slope, the gap shrinking by tau / (tau + dt) per measurement |
| Pid.FirstResponse | firmware/main/flight/flight_params.hpp:24-29 | the first answer of the three axes to moderate errors, in figures: 0.1524, 0.1524 and 0.162 times the error, pitch against the gyro |
| Pid.RateController.Update | firmware/main/flight/pid.cpp:71-86 | the three units, the pitch sign, the mixer call and the remembered shift |
| Pid.AntiWindup | firmware/main/flight/pid.cpp:71-86 | in every run: integrals and axis outputs within their limits; after a negative shift no integral rises, after a positive one none falls |
| Pid.AttitudeUpdate | firmware/main/flight/pid.cpp:95-109 | the rate setpoints, yaw the short way round, clamped, zero for non-finite errors |
| Pid.CascadeBounded | firmware/main/flight/pid.cpp:95-127 | for all sticks and attitudes the cascade's rate setpoints are bounded, and its yaw setpoint is zero |
| Pid.AttitudeLaw | firmware/main/flight/pid.cpp:95-109 | roll and pitch rates are six times setpoint minus estimate, cut at 5.236 rad/s: of its sign, zero exactly where they agree or are no numbers |
| Pid.StickLaw | firmware/main/flight/pid.cpp:111-127 | each stick drives its own axis with its sign, 5.236 rad/s or 0.5236 rad at full deflection |
| AttitudeLoop.RollIsRighted | firmware/main/flight/control_loop.cpp:59-68 | in attitude mode, through controller, mixer and airframe: a roll tilt off the stick meets a torque back towards the stick, while the craft is not returning faster than asked and roll is commanded hardest |
| AttitudeLoop.PitchIsRighted | firmware/main/flight/control_loop.cpp:59-68 | the same for pitch, nose-down positive |
| ControlLoop.YawStickCommandsIff | firmware/main/flight/control_loop.cpp:53-68 | in the closed-loop modes the yaw setpoint is the stick's rate exactly in rate mode or where that rate is zero |
| Angles.WrapPi | firmware/main/flight/estimator.cpp:14-17 | the two loops terminate and yield a value in [-pi, pi] |
| Angles.WrapCongruent | firmware/main/flight/estimator.cpp:14-17 | the result differs from the argument by a whole number of turns |
| Angles.WrapUnique | firmware/main/flight/estimator.cpp:14-17 | range and congruence determine the result, up to the sign of the half turn |
| Plant.SteadyIff | plant/vehicle.py:65 | the motor equation is at rest exactly when each motor turns at the speed of its clipped duty and the battery voltage |
| Plant.TorqueLaw | plant/vehicle.py:65-73 | at settled motors and without clipping, the exact roll, pitch and yaw torques (collective times command plus the product of the other two) and total thrust |
| Plant.GeometryIsSignTable | plant/drone_mini_params.py:51-58 | rotor positions and directions reproduce the mixer's sign table, up to arm length and change of frame |
| Plant.AirframeFigures | plant/drone_mini_params.py:36-43 | full-duty speed, thrust and reaction torque at nominal voltage, and how speed goes with the voltage |
| Plant.SingleAxisSigns | tests/test_plant_dynamics.py:58-77 | every single-axis command, at any throttle and clipped or not, turns the documented axis the documented way and no other |
| Plant.LargestAxisSigns | plant/vehicle.py:65-73 | with several commands at once, clipped or not, the largest one turns its axis the documented way |
| Plant.OnlySmallestReverses | plant/vehicle.py:65-73 | a command at least as large as one of the others is never reversed, clipped or not |
| Plant.DesaturatedOrder | firmware/main/flight/mixer.cpp:14-41 | desaturation and clamp keep every two channels in order and the highest apart from the lowest |
| Plant.AxisSignsIff | plant/vehicle.py:65-73 | where nothing clips: the exact sign of each torque from the command, and so exactly when an axis turns the documented way |
| Plant.ClippedAxisSigns | plant/vehicle.py:65-73 | where something clips: the exact sign of each torque from the three axis commands alone, the throttle having no say |
| Plant.SmallestClippedIff | plant/vehicle.py:65-73 | where something clips: the smallest axis turns the documented way exactly when a closed form of the three commands has its sign |
| Plant.SmallerAxisMayReverse | plant/vehicle.py:65-73 | a concrete command whose roll goes the wrong way although nothing clips |
| Plant.FeedbackSigns | firmware/main/flight/pid.cpp:71-86 | negative feedback through controller, mixer and airframe, in every state with clamped integrals: an axis whose rate error outweighs its integral and derivative terms, and that no other axis is commanded harder than, is driven against that error |
| Plant.FeedbackOpposes | firmware/main/flight/pid.cpp:78-85 | the first response from rest: a spin about one axis is met by a torque against it and by none about the others |
| Crc.CrcTable.Build | firmware/main/hal/sil_wire.cpp:13-20 | the table holds the bitwise register after eight steps for every byte |
| Crc.CrcTable.Accumulate | firmware/main/hal/sil_wire.cpp:28-32 | the table-driven loop equals the bit-at-a-time definition on every byte string |
| Crc.CrcTable.Checksum | firmware/main/hal/sil_wire.cpp:36-40 | initialise lazily, accumulate, finish: the reflected CRC-32 |
| Crc.CheckValue | firmware/main/hal/sil_wire.hpp:127 | the digits 1 to 9 give the check value CBF43926 of the standard CRC-32 |
| Crc.TableStepRefines | firmware/main/hal/sil_wire.cpp:28-32 | one table lookup does the work of eight register steps |
| Crc.UpdateConcat | firmware/main/hal/sil_wire.cpp:76-79 | feeding a concatenation is feeding its parts in turn |
| Crc.BitsLinear | firmware/main/hal/sil_wire.cpp:13-17 | the register is linear over exclusive or |
| Crc.BitsInjective | firmware/main/hal/sil_wire.cpp:13-17 | the register steps are invertible |
| Crc.UpdateAsWord | firmware/main/hal/sil_wire.cpp:28-32 | up to four bytes act on the register as one little-endian word |
| Crc.BurstDetected | firmware/main/hal/sil_wire.cpp:28-40 | two byte strings that differ only inside four consecutive bytes never share a checksum |
| Wire.PackMsg | firmware/main/hal/sil_wire.cpp:42-61 | the exact bytes written, the rest of the buffer untouched, and -1 exactly when the message does not fit |
| Wire.UnpackMsg | firmware/main/hal/sil_wire.cpp:63-84 | the four rejections in their order, and the accepted message |
| Wire.PackedLayout | firmware/main/hal/sil_wire.hpp:34-41 | every byte of a packed message: magic, version, type, and length, number and checksum least significant byte first |
| Wire.ParseEncode | firmware/main/hal/sil_wire.hpp:34-41 | reading a packed header returns its fields, the length modulo 65536 |
| Wire.EncodeParse | plant/sil_proto.py:81-89 | re-packing a parsed header returns the bytes it was parsed from |
| Wire.UnpackersAgree | plant/sil_proto.py:78-92 | the C++ and the Python end accept exactly the same buffers, read the same message, and reject the others for the same reason |
| Wire.RoundTripIff | firmware/main/hal/sil_wire.cpp:42-84 | unpacking undoes packing, with anything behind the message, exactly when the payload is shorter than 65536 bytes |
| Wire.CrossRoundTrip | plant/sil_proto.py:71-92 | each end unpacks what the other packs, and the Python end refuses exactly the payloads that would not survive |
| Wire.BurstRejected | firmware/main/hal/sil_wire.cpp:63-84 | a change inside four consecutive bytes that spares length and CRC is never accepted, and is rejected by the CRC when magic and version are spared too |
| Wire.CrcFieldRejected | firmware/main/hal/sil_wire.cpp:80 | any change confined to the CRC field is rejected by the CRC |
| Wire.HelloMatches | firmware/main/hal/sil_wire.cpp:91-97 | true exactly for equal tick period and equal seven sizes |
| Sbus.SbusEncode | plant/rc.py:19-30 | the 25 bytes of a frame for any channel list and flags |
| Sbus.EncodedValue | plant/rc.py:21-27 | the 22 data bytes spell the integer the channels were packed into |
| Sbus.ChannelIsField | firmware/main/flight/rc_parse.cpp:22-31 | on every 25-byte frame, picking a channel out of two or three bytes equals the big-integer decode |
| Sbus.RoundTrip | plant/rc.py:19-40 | both decoders return every channel modulo 2048 and the low four flag bits |
| RcParse.DecodeFrame | firmware/main/flight/rc_parse.cpp:42-68 | which frames are accepted, the sample read from them, and an untouched sample otherwise |
| RcParse.AcceptsIff | firmware/main/flight/rc_parse.cpp:42-54 | a frame is accepted exactly with header 0x0F, an empty upper half of the flags byte and channels not all alike |
| RcParse.NormLaw | firmware/main/flight/rc_parse.cpp:33-40 | the stick scale on every channel value: straight lines from 172 over 992 to 1811, flat beyond |
| RcParse.ThrottleLaw | firmware/main/flight/rc_parse.cpp:58-61 | the throttle scale on every channel value |
| RcParse.SbusParser.Feed | firmware/main/flight/rc_parse.cpp:70-95 | a call yields the frames and the tail of a greedy scan of tail and chunk, with the two reset cases |
| RcParse.SbusParser.ScanBuffer | firmware/main/flight/rc_parse.cpp:78-89 | the scanning loop computes the recursive scan: frames counted, last sample delivered, start of the tail |
| RcParse.ScanConcat | firmware/main/flight/rc_parse.cpp:78-93 | a scan can stop anywhere and resume from its unread tail |
| RcParse.ChunkIndependence | firmware/main/flight/rc_parse.cpp:70-95 | for every split into chunks of 1 to 40 bytes: same frames, same count and same tail as one scan of the whole stream |
| RcParse.ChunkBoundIff | firmware/main/flight/rc_parse.cpp:70-95 | chunks of up to n bytes, cut anywhere, give exactly the frames of one scan if and only if n is at most 40 |
| RcParse.FeedResumesIff | firmware/main/flight/rc_parse.cpp:71-76 | once a frame has been counted, a call resumes the scan if and only if its chunk is not empty and fits the buffer behind the tail |
| RcParse.FeedResets | firmware/main/flight/rc_parse.cpp:71-75 | empty and oversized chunks clear the parser and its count; a chunk that does not fit behind the tail is scanned alone |
| RcParse.OverflowLosesFrame | firmware/main/flight/rc_parse.cpp:75 | the losing input: any accepted frame cut after 24 bytes, its last byte leading a chunk of 41 |
| RcParse.Resynchronises | firmware/main/flight/rc_parse.cpp:78-89 | after any junk in which no acceptable frame starts, header bytes included, all frames come out in order, none left over, under every chunking |
| RcParse.StreamDecoded | firmware/main/flight/rc_parse.cpp:78-89 | after junk without header bytes all frames come out in order, none left over, under every chunking |
| RcParse.EncodedAccepted | firmware/main/flight/rc_parse.cpp:49-54 | an encoded frame is accepted exactly when its kept channels are not all equal |
| RcParse.SampleOfEncoded | firmware/main/flight/rc_parse.cpp:56-66 | what the flight code sees of an encoded frame: channel map, switch and flags |
| RcParse.StickRoundTrip | plant/rc.py:43-47 | stick to channel and back is the clamped stick within half a step |
| RcParse.ThrottleRoundTrip | plant/rc.py:50-52 | throttle to channel and back is the clamped throttle within half a step |
| Estimator.ComplementaryEstimator.CalibrateUpdate | firmware/main/flight/estimator.cpp:31-53 | one calibration call: ignored, restarted by motion, collected or completed |
| Estimator.ComplementaryEstimator.Update | firmware/main/flight/estimator.cpp:55-89 | one fusion call: debounce, decimation, blend, wrap |
| Estimator.CalibrationLaw | firmware/main/flight/estimator.cpp:31-53 | calibration is complete exactly once 200 usable still samples came without motion in between, and the bias is ever after the mean of the first such 200 |
| Estimator.BiasBounded | firmware/main/flight/estimator.cpp:35-51 | the norm of the bias never exceeds the motion threshold |
| Estimator.CalibrationSeparate | firmware/main/flight/estimator.cpp:31-89 | fusing calls never touch the calibration |
| Estimator.DebounceIsTrailingRun | firmware/main/flight/estimator.cpp:56-63 | the invalid count is the trailing run of bad fusing calls, capped at 5, and decides validity |
| Estimator.AttitudeInRange | firmware/main/flight/estimator.cpp:83-88 | after any calls all three angles lie in [-pi, pi] |
| Estimator.Converges | firmware/main/flight/estimator.cpp:65-88 | at rest the error to the accelerometer angle after k fusions is alpha^k times the initial one, on both axes |
| Estimator.ErrorEnvelope | firmware/main/flight/estimator.cpp:65-88 | under a bounded rate the error after k fusions is at most alpha^k times the initial one plus 1 - alpha^k times the band |
| Estimator.ErrorBand | firmware/main/flight/estimator.cpp:65-88 | a bounded rate keeps the error within alpha times rate times period over 1 - alpha, once there |
| Estimator.SignedLaw | firmware/main/flight/estimator.cpp:65-88 | under a constant signed rate the error approaches alpha * rate * period / (1 - alpha), the distance shrinking by alpha per fusion; roll turns with gyro x, pitch against gyro y |
| Estimator.YawLaw | firmware/main/flight/estimator.cpp:81-88 | after any calls yaw is, up to whole turns, the sum of gyro z over two periods at every second good sample |
| Estimator.FreeFall | firmware/main/flight/estimator.cpp:70-84 | without gravity roll and pitch follow the gyro alone |
| Failsafe.FailsafeFsm.Boot | firmware/main/flight/failsafe.cpp:22-31 | the four fault resets boot latched, every other reset clean |
| Failsafe.FailsafeFsm.Update | firmware/main/flight/failsafe.cpp:33-98 | the whole new state of one update |
| Failsafe.StepCoherent | firmware/main/flight/failsafe.cpp:65-97 | latches, flags, reason mask and output gate tell one story after every update; only an arm-test edge removes reasons; what a fault does to arming |
| Failsafe.TwoFaultyTicks | firmware/main/flight/failsafe.cpp:71-97 | of two successive faulty ticks one leaves the craft disarmed |
| FailsafeHistory.CountersAreTrailingRuns | firmware/main/flight/failsafe.cpp:37-59 | in every reachable state the counters equal trailing runs of fresh frames and of bad samples |
| FailsafeHistory.BystandersAreHistory | firmware/main/flight/failsafe.cpp:44-62 | the lost-frame counter and the battery flag, which steer nothing, count and say what they should |
| FailsafeHistory.FaultsAreHistory | firmware/main/flight/failsafe.cpp:47-70 | a tick's faults, from the input history alone |
| FailsafeHistory.ReasonIsHistory | firmware/main/flight/failsafe.cpp:71-86 | a reason is in the mask exactly when a fault or the boot raised it and no arm-test edge came since |
| FailsafeHistory.LatchesAreHistory | firmware/main/flight/failsafe.cpp:71-86 | latched, active and boot-latched, each as an if-and-only-if over the history |
| FailsafeHistory.ArmedIsHistory | firmware/main/flight/failsafe.cpp:80-97 | armed exactly when some tick armed the craft and every tick since kept it armed |
| FailsafeHistory.ArmingHistory | firmware/main/flight/failsafe.cpp:22-98 | without arm-test: armed exactly when the boot was clean, no tick was faulty, and ten fresh frames, calibration and low throttle met at some tick with frame and switch present ever since |
| FailsafeHistory.RcLossTiming | firmware/main/flight/failsafe.cpp:37-47 | on an increasing clock every frame is fresh and the unsigned timeout is plain elapsed time |
| FailsafeHistory.RcLossLatency | firmware/main/flight/failsafe.cpp:37-97 | no timeout before 100 ms after the last frame; the first tick from there on latches and disarms unless it is an arm-test edge |
| FailsafeHistory.RunCoherent | firmware/main/flight/failsafe.cpp:7-98 | the latch algebra holds in every reachable state |
| HalSil.SilHal.RecvState | firmware/main/hal/hal_sil.cpp:126-148 | which message is accepted, replayed or frozen-clock states refused, and nothing changed unless accepted |
| HalSil.SilHal.PwmWrite | firmware/main/hal/hal_sil.cpp:157-159 | the four duties and nothing else of the report |
| HalSil.SilHal.PwmOff | firmware/main/hal/hal_sil.cpp:160-162 | four zeros and nothing else of the report |
| HalSil.SilHal.ApplyOutput | firmware/main/flight/output.cpp:7-23 | exactly one PWM call, a write exactly for armed, not failing, IMU valid and four numbers in [0, 1] |
| ControlLoop.ReadRc | firmware/main/flight/control_loop.cpp:15-20 | the frame flag means a frame decoded this tick; the stamp is the HAL clock |
| ControlLoop.BytesOfTick | firmware/main/hal/hal_sil.cpp:178-184 | the parser is fed the announced bytes, at most 32, and not called without any |
| ControlLoop.RunControl | firmware/main/flight/control_loop.cpp:42-70 | duties, shift and controller state in the four control paths |
| ControlLoop.OpenLoopSource | firmware/main/flight/control_loop.cpp:46-52 | open loop mixes the sticks or the configured command, read back from the duties, and leaves the controller alone |
| ControlLoop.ClosedLoopSource | firmware/main/flight/control_loop.cpp:53-69 | the closed-loop modes mix the stick's throttle with the controller's answers to the stick rates or to the attitude cascade |
| ControlLoop.Tick | firmware/main/flight/control_loop.cpp:10-91 | the composed tick in its fixed order: new state of every module, one PWM call, motors and LED of the report |
| FlightRuns.SafetyProjects | firmware/main/flight/control_loop.cpp:22-26 | in the loop the state machine runs as its own history laws require |
| FlightRuns.EstimatorProjects | firmware/main/flight/control_loop.cpp:28-40 | in the loop the estimator sees one fusing call per armed tick and one calibrating call per disarmed tick |
| FlightRuns.RateProjects | firmware/main/flight/control_loop.cpp:53-68 | in the closed-loop modes the rate controller is updated once per tick, never in open loop |
| FlightRuns.RcStreamIntact | firmware/main/flight/control_loop.cpp:15-18 | frames seen over any number of ticks are those of one scan of all bytes delivered |
| FlightRuns.SticksOfTick | firmware/main/flight/control_loop.cpp:17-20 | the sticks, throttle and switch of a tick are those of the last frame it completes |
| FlightRuns.NoSticks | firmware/main/flight/control_loop.cpp:17-20 | a tick that completes no frame has centred sticks, no throttle and the switch off |
| FlightRuns.FaultsFromState | firmware/main/flight/control_loop.cpp:22-26 | a tick's faults from the delivered state: a voltage that is a number below 3.3, five defective samples in a row, the failsafe bit of the last frame |
| FlightRuns.GyroReachesController | firmware/main/flight/control_loop.cpp:30-35 | once calibrated, what the controller works on plus the bias is the raw reading, axis by axis; before that it is the raw reading |
| FlightRuns.GyroReachesEstimator | firmware/main/flight/control_loop.cpp:29-40 | raw samples calibrate at ticks that end disarmed, corrected ones are fused over one millisecond at those that end armed |
| FlightRuns.ControlGyroFromSamples | firmware/main/flight/control_loop.cpp:30-35 | without arm-test: the controller's gyro is the delivered sample less the mean of the first 200 still samples |
| FlightRuns.StillCraftReadsZero | firmware/main/flight/control_loop.cpp:30-35 | a craft that still reads the mean it was calibrated with shows the controller exactly zero |
| FlightRuns.MotorsOnIff | firmware/main/flight/control_loop.cpp:42-75 | motors are written at a tick exactly when the input history has the craft armed and fewer than five bad samples trail over the armed ticks |
| FlightRuns.MotorsFromInputs | firmware/main/flight/control_loop.cpp:15-75 | the same without arm-test, told from delivered bytes and samples alone |
| FlightRuns.MotorsNeedThisTick | firmware/main/flight/control_loop.cpp:18-75 | motors turn only with an arm-test request, or with a frame decoded that very tick and the switch on, and with no fault standing |
| FlightRuns.TwoDebounces | firmware/main/flight/control_loop.cpp:36-40 | the two IMU debounces count different runs: all ticks, and armed ticks only |
| FlightRuns.BiasAndAttitude | firmware/main/flight/control_loop.cpp:28-40 | the bias changes only on ticks that end disarmed and never once calibrated; bias and attitude stay bounded |
| FlightRuns.LoopAntiWindup | firmware/main/flight/control_loop.cpp:53-71 | anti-windup of the closed loop, in terms of the shift it publishes |
| FlightRuns.RcLoss | firmware/main/flight/control_loop.cpp:15-26 | in the loop: the first tick at least 100 ms after the last decoded frame, and none earlier, latches the timeout and stops the motors |
| FlightRuns.CalibrationFromSamples | firmware/main/flight/control_loop.cpp:26-40 | without arm-test, the calibration in the loop is that of all samples delivered, because nothing arms before it is done |
| FlightRuns.LoopArming | firmware/main/flight/control_loop.cpp:15-40 | without arm-test on a forward clock, armed exactly when the boot was clean, no tick was faulty, and at some tick 200 still samples had been seen, the throttle was low and ten ticks in a row had completed frames, with a frame and the switch at every tick since; all of it told from delivered bytes and samples |
| SilRunner.FirmwareMain | sim/main_sil.cpp:93-149 | exit status and everything put on the wire, for every HELLO answer, every sequence of receives and every failing send |
| SilRunner.EveryReportSafe | sim/main_sil.cpp:123-146 | against any peer, every FW_OUT with a turning motor carries armed, no failsafe and a valid IMU, duties lie in [0, 1], and sequence numbers have no gap |
| SilRunner.AcceptedStatesMoveForward | firmware/main/hal/hal_sil.cpp:139-147 | whatever a peer sends, the loop ticks on strictly increasing clocks only, and its state is the run over exactly the accepted states |
| SilRunner.AcceptedNumbersIncrease | firmware/main/hal/hal_sil.cpp:139-147 | whatever a peer sends, the states that reach the loop carry strictly increasing sequence numbers |
| SilRunner.ExitCodes | sim/main_sil.cpp:123-149 | with which code each outcome of a receive and of a send ends the process, and when it goes on |
| SilRunner.HelloExit | sim/main_sil.cpp:98-101 | only an ACK with the same period and sizes starts the loop |
| SilRunner.EveryReportOf | sim/main_sil.cpp:135-141 | report k that goes out is, field by field, that of tick k of the loop's run over the accepted states |
| SilRunner.ReportMeans | sim/main_sil.cpp:135-141 | each field of a report in terms of the inputs up to its tick: flags and LED by the history, attitude by the estimator's run, motor i the i-th duty where the flags allow it and zero elsewhere |
| Lockstep.StepKeeps | plant/runner.py:93-194 | every step of either process leads from one of ten situations to another, strictly nearer the end |
| Lockstep.CanMove | plant/runner.py:93-194 | no deadlock: until the run has ended some process can step |
| Lockstep.LockstepSafety | plant/runner.py:122-166 | in every reachable state: the reports received are those of the synchronous co-simulation, the applied duty is the response to the latest STATE, the report of tick k carried k + 1, at most one message is in flight after the ACK, and after a matching HELLO nobody leaves with a protocol violation or a timeout |
| Lockstep.LockstepCompletes | plant/runner.py:93-194 | every run ends within 3n + 8 steps: both sides clean after n ticks, or the plant's numerical exit at the first report that breaks its dynamics, or both rejecting when the HELLOs differ |
| Lockstep.CoSimIsLoopRun | sim/main_sil.cpp:122-146 | the co-simulation is a run of the control loop on a clock of one millisecond per tick, so all laws of loop runs hold in lockstep; reports stay safe through the rounding of their fields |
| Lockstep.PlantOutcomes | plant/runner.py:142-166 | what the plant makes of anything it may receive: a report is taken exactly when it is an FW_OUT with a newer number, and every other case ends with its exit code and nothing changed |
| Lockstep.GreetingOutcomes | plant/runner.py:93-104 | which first messages start a run, which are answered before leaving, and which are not |
| ByteLockstep.FrameArrives | firmware/main/hal/hal_sil.cpp:64-91 | a packed message that fits the firmware's 256-byte buffers arrives at either end as what was sent |
| ByteLockstep.FrameLayout | firmware/main/hal/sil_wire.hpp:16-23 | the type numbers and the sequence number as they stand on the wire |
| ByteLockstep.CutMessage | firmware/main/hal/hal_sil.cpp:75-91 | a datagram cut to a receive buffer holds the same message if the message ends within it, and none otherwise |
| ByteLockstep.EndsReceiveAlikeIff | plant/runner.py:38-50 | the plant and the firmware receive the same thing exactly when the datagram does not hold a message of more than 256 bytes within the plant's 4096; an empty datagram ends the stream for both |
| ByteLockstep.StepsAgree | plant/runner.py:93-194 | the steps of the two processes over bytes are exactly the encodings of their steps over messages |
| ByteLockstep.TraceDecodes | plant/runner.py:93-194 | every run over bytes encodes a run over messages, state by state |
| ByteLockstep.ByteLockstepCorrect | plant/runner.py:93-194 | lockstep safety, bounded length and proper ending of every run in which each message is packed, sent as bytes and unpacked with its CRC checked |
| ByteLockstep.DamageStops | firmware/main/hal/hal_sil.cpp:85-91 | a burst of up to four bytes outside length and CRC, or any damage to the CRC, makes whoever receives the datagram leave with a protocol exit without ticking, applying or sending anything |
| ByteLockstep.LayoutExists | firmware/main/hal/sil_wire.hpp:32-115 | for every scene there is a payload layout that carries all its messages, so the byte-level results are never empty |
| NoisyLockstep.SoundStays | plant/runner.py:93-194 | every step, damage in flight included, keeps the run on the course of the undamaged one until somebody receives damage and leaves |
| NoisyLockstep.NoisyLockstepSafety | plant/runner.py:122-166 | however many datagrams are damaged, in every reachable state the plant holds reports of the synchronous co-simulation only and applies the duty of the latest, the firmware runs in a state of the co-simulation, and a clean plant exit misses at most the last report |

## Left out

- Sockets, connect retries, interrupted calls, peer credentials, subprocess handling and command-line parsing: only the order and content of messages are kept. In the two-process model the channels are reliable and in order, and receive timeouts do not occur; the firmware process alone is modelled with timeouts, corrupt buffers, early ends of stream and failing sends.
- A send by the plant to a firmware that has already gone, and a HELLO body of the wrong size, raise Python exceptions that end the plant with a traceback; the model exits with the protocol code there. Neither state is reachable against the modelled firmware.
- The plant's dynamics, sensor noise, battery and RC scenario are one function from the reports received to the next STATE, and one predicate for non-finite states. RK4 integration and the RotorPy adapter are not part of this model.
- The byte layout of the STATE, FW_OUT and HELLO payloads: the byte-level protocol takes any layout that reads back the messages of its run (binary32 fields do: STATE and FW_OUT records are rounded to them by an arbitrary function before they are written), and a payload of another size reads as a record of another kind. Magnetometer, temperature, the TELEM message and the CSV log are not carried.
- LED blinking: only the LED mode chosen per tick is modelled.
- The hardware HAL, the mock HAL, the application entry point on the target and the host bindings.
- `frame_lost` counting is modelled but feeds nothing, as in the code; nothing further is stated of it.
- RcParse.SbusParser.Feed: several frames completing in one call are all counted, but the caller sees the last sample only, as in the code.
- Pid.PidUnit.Step: the period is a real, so a NaN or infinite period is not modelled (the only caller passes 0.001); the final finiteness test of the output is always true on exact numbers and is not written out.
- Estimator.ComplementaryEstimator.Update: the period is a real, so a NaN or infinite period is not modelled (the only caller passes 0.001).
- Pid.DStateBounded: slopes are taken between successive accepted inputs, each over the period of the later one, as the code does.
- HalSil.SilHal.RecvState: takes an unpacked message; the unpacking of a datagram is ByteLockstep.CppReceived.
- Estimator.ErrorEnvelope: stated where neither the initial error nor the band crosses the half turn; across it the angle wraps and the error is not a plain difference.
- Estimator.ErrorBand: stated where the band around the accelerometer angle stays inside the half turn; across it the angle wraps and the error is not a plain difference.
- Plant.FeedbackOpposes: the first response from rest; later ones are Plant.FeedbackSigns.
- Plant.FeedbackSigns: says nothing of an axis whose rate error is too small to outweigh its integral and derivative terms, where the output may rightly have either sign.
- Lockstep.LockstepSafety: run lengths below 2^32 ticks, the range of the sequence number.
