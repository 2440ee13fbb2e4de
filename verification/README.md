# pypulsepal command layer in Dafny

A model of the command layer of pypulsepal, the Python driver for the
PulsePal pulse generator. The driver turns named channel parameters into
fixed byte frames for the device, and it keeps per-parameter lists that
mirror the values the device has confirmed. The model has six modules:

- `Outcomes` (outcomes.dfy): `Option`, `Result` and `Outcome`, plus one
  `Error` per exception the driver raises or lets escape.
- `Codec` (codec.dfy): `volts_to_bytes` over the reals, and
  `encode_message` as little-endian fixed-width unsigned encoding with its
  decoder.
- `Registry` (registry.dfy): the tables of `definitions.py`, as Dafny
  maps and sequences, with the two name/code resolvers. These are the
  parameter codes and names, the dtypes of both hardware models, the
  scaling, the defaults and the command bytes.
- `Frames` (frames.dfy): the hardware profile the handshake picks, the
  value transform of `program_one_param`, the soft-trigger mask, and the
  byte frame of every command with its layout.
- `Protocol` (protocol.dfy): what the commands do, as functions on values.
  - The serial link is a log of written frames plus a queue of reply
    bytes (`Link`).
  - The per-parameter lists are a `Mirror`.
  - It defines one `program_one_param` call, the `upload_all` run, and the
    cell overwrites of the `config` setter.
- `Session` (session.dfy): class `PulsePal` as a Dafny class. It holds the
  link, the hardware attributes and the lists as fields. Each command
  method is proved equal to its `Protocol` definition on the old state,
  and each frame it writes to its `Frames` definition. `PulsePalHandshake`
  and `Connect` have no `Protocol` counterpart: their contracts state the
  frame sent, the replies consumed and the attributes assigned directly.

The serial port is abstract. `sent` holds every frame written so far;
`replies` holds the bytes the device will deliver. A read from an empty
queue stands for a read that times out (`NoReply`). The number of bytes
`_clear_read_queue` finds waiting is a parameter of the handshake.

The model keeps the driver's own behaviour, including its quirks:

- The handshake reads the firmware version as one `uint8`
  (pypulsepal/pulsepal.py:114). The comment beside `HANDSHAKE_OK` at
  pypulsepal/definitions.py:175 announces a 32-bit version after "K".
- The handshake flushes waiting bytes with `_clear_read_queue`
  (pypulsepal/pulsepal.py:116) before it compares the status (:118), so it
  flushes after a failed handshake as well as after a successful one.
- Both custom-train ids map to opcode 75.
- The mirror stores the transformed value: voltage-coded and scaled
  (pypulsepal/pulsepal.py:200-204), not the value the caller passed.
- `set_continuous` sends the channel unshifted; `program_one_param` sends
  `channel + 1`.
- The per-parameter lists are sized from the class defaults 4 and 2,
  before `__init__` stores its channel counts.
- `resolve_trigger_name_code_pair` consults the parameter tables.

## Model

| member | source | states |
|---|---|---|
| Codec.VoltsToBytes | pypulsepal/utils.py:4-6 | the result is the least integer at or above ((v + 10) / 20) · dacBitMax |
| Codec.VoltsToBytesSamples | pypulsepal/utils.py:6 | 0 V at 255 is 128, -10 V is 0, 10 V at 65535 is 65535, 5 V at 255 is 192 |
| Codec.VoltsToBytesInRange | pypulsepal/utils.py:4-6 | for -10 ≤ v ≤ 10 and dacBitMax ≥ 0 the code lies in [0, dacBitMax] |
| Codec.VoltsToBytesMonotone | pypulsepal/utils.py:4-6 | a higher voltage never gets a lower code |
| Codec.DecodeEncode | pypulsepal/utils.py:12 | decoding the w little-endian bytes of n < 256^w gives n back |
| Codec.EncodeDecode | pypulsepal/utils.py:12 | encoding the decoded value of any byte string at its length gives the same bytes |
| Codec.Cast | pypulsepal/utils.py:12 | the stored array element fits w bytes, and equals the integer part of any value already in range |
| Codec.EncodeElement | pypulsepal/utils.py:12 | one element takes exactly the dtype's width |
| Codec.DecodeElement | pypulsepal/utils.py:12 | an in-range element decodes back to its integer part |
| Codec.EncodeAll | pypulsepal/utils.py:11-13 | an array of n elements encodes to n × width bytes |
| Codec.EncodeSinglePart | pypulsepal/utils.py:9-15 | a one-part message is that part's elements, encoded |
| Codec.EncodeAllAppend | pypulsepal/utils.py:11-14 | encoding distributes over concatenation |
| Codec.EncodeMessageFlattens | pypulsepal/utils.py:9-15 | the message is the encoding of all parts' elements in order, of length (number of elements) × width |
| Codec.EncodeAllAt | pypulsepal/utils.py:11-14 | element i occupies bytes [i·w, i·w + w) |
| Codec.EncodeMessageRoundTrip | pypulsepal/utils.py:9-15 | every in-range element decodes back from its slot of the message |
| Registry.NamesInvertCodes | pypulsepal/definitions.py:2-22 | code → name → code is the identity on all 18 codes |
| Registry.CodesInvertNames | pypulsepal/definitions.py:2-22 | name → code → name is the identity on all 18 names |
| Registry.CodesNameDistinct | pypulsepal/definitions.py:2-21 | different codes have different names |
| Registry.CodeRange | pypulsepal/definitions.py:2-21 | every code is in 1..17, or is 128 for triggerMode |
| Registry.TablesShareKeys | pypulsepal/definitions.py:79-139 | both dtype tables and the scaling table are keyed by exactly the registered names |
| Registry.ScalingByCode | pypulsepal/definitions.py:119-139 | the scaling is 20000 exactly for codes 4..11 and 1 for every other name |
| Registry.DtypeTablesDifferOnVoltages | pypulsepal/definitions.py:79-118 | the two dtype tables agree except on the three voltages, which are uint8 on model 1 and uint16 on model 2 |
| Registry.DtypeByCode | pypulsepal/definitions.py:75-118 | codes 4..11 are uint32; isBiphasic, codes 12..16 and triggerMode are uint8; on both models |
| Registry.DefaultsFollowCodes | pypulsepal/definitions.py:2-42 | CHANNEL_PARAM_DEFAULTS lists the names of codes 1..17 in code order |
| Registry.DefaultNamesDistinct | pypulsepal/definitions.py:23-42 | the channel parameter names are pairwise distinct |
| Registry.TriggerModeSeparate | pypulsepal/definitions.py:23-68 | triggerMode is not a channel default, and TRIGGER_PARAM_DEFAULTS holds only triggerMode |
| Registry.RegisteredNames | pypulsepal/definitions.py:2-42 | a name is registered iff it is a channel parameter or triggerMode |
| Registry.ResolveParamNameCodePair | pypulsepal/definitions.py:187-198 | a name resolves iff registered and keeps the name; a code resolves iff registered and keeps the code; the pair always agrees with the tables; unknown ids fail with an assertion, other types with ValueError |
| Registry.ResolveByNameOrCode | pypulsepal/definitions.py:187-198 | a known parameter resolves to the same pair by name and by code |
| Registry.ResolveTriggerNameCodePair | pypulsepal/definitions.py:201-211 | it is the parameter resolver under another name: an int resolves iff it is a parameter code and is returned unchanged as the code; a str iff it is a parameter name; other types fail |
| Registry.TriggerModesAsParameters | pypulsepal/definitions.py:201-211 | mode 0 is refused, modes 1 and 2 resolve to isBiphasic and phase1Voltage, and no mode name resolves |
| Frames.ProfileForIsConsistent | pypulsepal/pulsepal.py:118-128 | versions below 20 give model 1 and the rest model 2; the dtype table covers exactly the registered names; the DAC maximum is the largest value a voltage field holds |
| Frames.ProfileBoundary | pypulsepal/pulsepal.py:121-128 | version 19 gives model 1 with 255 and version 20 gives model 2 with 65535 |
| Frames.VoltageCodeFits | pypulsepal/pulsepal.py:180-196 | a voltage in [-10, 10] always fits the connected model's voltage field |
| Frames.NoVoNotVoltage | pypulsepal/pulsepal.py:180 | a name without "vo" in any case does not contain "volt" after lower() |
| Frames.VoltagesMentionVolt | pypulsepal/pulsepal.py:180 | the three voltage parameters pass the "volt" test |
| Frames.OthersDoNotMentionVolt | pypulsepal/pulsepal.py:180 | no other registered parameter passes the "volt" test |
| Frames.VoltDetection | pypulsepal/pulsepal.py:180 | among the registered names, the "volt" test holds exactly for the three voltage parameters |
| Frames.WireValueByClass | pypulsepal/pulsepal.py:180-188 | voltages become DAC codes, durations become value × 20000, and every other value is unchanged |
| Frames.DurationTicksExample | pypulsepal/pulsepal.py:180-188 | a 1 ms phase duration goes out as 20 ticks |
| Frames.U8Byte | pypulsepal/pulsepal.py:86-88 | a number below 256 encoded as uint8 is that single byte |
| Frames.TriggerMask | pypulsepal/pulsepal.py:365-370 | the mask lies in [0, 15] |
| Frames.TriggerMaskBits | pypulsepal/pulsepal.py:365-370 | bit i of the mask is set iff channel i+1 is selected |
| Frames.ProgramOneLayout | pypulsepal/pulsepal.py:191-198 | the frame is [opcode][74][code][channel+1] then the value at the dtype's width, and the value decodes back |
| Frames.ContinuousLayout | pypulsepal/pulsepal.py:341-347 | the frame is [opcode][82][channel][state], with the channel unshifted |
| Frames.SoftTriggerLayout | pypulsepal/pulsepal.py:371-382 | the frame is [opcode][77][mask], and trigger-all sends mask 15 |
| Frames.AbortAndSaveLayout | pypulsepal/pulsepal.py:386-401 | abort is [opcode][80] and save is [opcode][81], with no payload |
| Frames.CustomTrainParts | pypulsepal/pulsepal.py:286-299 | the frame is [opcode][75], then the count, the times as uint32 and the codes at the voltage width, for both train ids |
| Frames.CustomTrainFields | pypulsepal/pulsepal.py:286-299 | the frame's length and its four fields at their byte offsets |
| Frames.DecodeSlot | pypulsepal/utils.py:11-14 | an in-range element decodes back from its slot of an array encoded inside a longer frame |
| Frames.CustomTrainLayout | pypulsepal/pulsepal.py:286-299 | the frame has length 6 + 4n + n·width, starts with [opcode][75], and its count field decodes to n |
| Frames.CustomTrainTimeSlot | pypulsepal/pulsepal.py:293-294 | every in-range pulse time decodes back from bytes 6 + 4i .. 10 + 4i |
| Frames.CustomTrainCodeSlot | pypulsepal/pulsepal.py:295-298 | every in-range voltage code decodes back from its slot at the voltage width |
| Protocol.HandshakeProfilesWired | pypulsepal/pulsepal.py:119-128 | both profiles the handshake can install have a dtype for every registered parameter |
| Protocol.PyIndex | pypulsepal/pulsepal.py:163 | a list index is valid iff -len ≤ i < len, and a negative index counts from the end |
| Protocol.SetCell | pypulsepal/pulsepal.py:161-164 | a missing list is an AttributeError and a bad index an IndexError; otherwise exactly the addressed cell takes the value and no list changes shape |
| Protocol.Exchange | pypulsepal/pulsepal.py:100-102 | one frame is appended to the log; a reply is consumed and compared with 1, and an empty queue is NoReply |
| Protocol.ProgramOneStep | pypulsepal/pulsepal.py:166-206 | at most one frame is sent; the lists keep their shape; the mirror changes only after a reply of 1 |
| Protocol.ProgramOneRejectsBeforeSending | pypulsepal/pulsepal.py:170-172 | an unknown parameter, or an id that is neither name nor code, sends nothing, reads nothing and changes nothing |
| Protocol.ProgramOneEffect | pypulsepal/pulsepal.py:173-206 | a known parameter sends its program-one frame with the transformed value; a reply of 1 stores that value in that one cell; any other reply, or none, leaves the mirror unchanged |
| Protocol.ProgramTriggerStep | pypulsepal/pulsepal.py:208-218 | a mode that does not resolve sends nothing; otherwise its code is programmed as the channel's triggerMode |
| Protocol.TriggerModeGoesOutUnchanged | pypulsepal/pulsepal.py:208-218 | an int mode that is a parameter code goes on the wire unchanged as code 128's value |
| Protocol.TriggerNormalRefused | pypulsepal/pulsepal.py:208-218 | mode 0 ("normal") is refused before anything is sent |
| Protocol.Row | pypulsepal/pulsepal.py:224 | the calls for one parameter are channels 0 .. n-1 in order |
| Protocol.RunWrites | pypulsepal/pulsepal.py:220-251 | a run never changes the shape of the lists, and only appends to the log, at most one frame per call |
| Protocol.StepsPass | pypulsepal/pulsepal.py:220-251 | when every write is confirmed, the run passes, stores every write and sends one frame per write |
| Protocol.StepsStop | pypulsepal/pulsepal.py:220-251 | when only the first k writes are confirmed, the run fails at write k+1, with k writes stored and k+1 frames sent |
| Protocol.RunFirstWrite | pypulsepal/pulsepal.py:223-236 | the first call sends its frame, stops on no reply or a refusal, and on a 1 stores and continues |
| Protocol.RunWritesFitting | pypulsepal/pulsepal.py:220-251 | when every call finds its cell, upload_all is the step-by-step run of program-one frames and confirmed stores |
| Protocol.UploadRunPasses | pypulsepal/pulsepal.py:220-251 | with every write confirmed, the run passes, every write is stored, the frames go out in order, and one reply per write is consumed |
| Protocol.UploadRunStops | pypulsepal/pulsepal.py:220-251 | at the first unconfirmed write (k+1) the run raises (UploadRejected or NoReply); the mirror holds exactly the first k writes and nothing after frame k+1 is sent |
| Protocol.ApplyWritesCells | pypulsepal/pulsepal.py:200-204 | after distinct confirmed writes, each written cell holds its transformed value and every other cell is unchanged |
| Protocol.MirrorHoldsWireValue | pypulsepal/pulsepal.py:188-204 | the mirror keeps the transformed value, so programming it again transforms it a second time |
| Protocol.DurationScaledTwice | pypulsepal/pulsepal.py:188-204 | a 1 ms duration is stored as 20 ticks and goes out as 400000 ticks on the next upload |
| Protocol.RowsLength | pypulsepal/pulsepal.py:223-224 | the rows of k names over n channels have k·n calls |
| Protocol.RowsAt | pypulsepal/pulsepal.py:223-224 | call i·n + c is channel c of the i-th name |
| Protocol.RowsMembers | pypulsepal/pulsepal.py:223-224 | every call names one of the names and a channel below n |
| Protocol.RowsDistinct | pypulsepal/pulsepal.py:223-224 | distinct names give distinct calls |
| Protocol.UploadScheduleOrder | pypulsepal/pulsepal.py:223-245 | upload_all makes 17·N + M calls, and parameter i on channel c is call i·N + c |
| Protocol.UploadScheduleTriggers | pypulsepal/pulsepal.py:239-245 | trigger channel t is call 17·N + t, after all channel parameters |
| Protocol.UploadScheduleDistinct | pypulsepal/pulsepal.py:220-251 | upload_all never programs the same cell twice |
| Protocol.Repeat | pypulsepal/pulsepal.py:64 | `[v] * n` has n copies of v |
| Protocol.FillListed | pypulsepal/pulsepal.py:63-67 | with distinct names, each listed parameter gets n copies of its default |
| Protocol.FillUnlisted | pypulsepal/pulsepal.py:63-67 | an unlisted parameter keeps its list, or stays absent |
| Protocol.DefaultMirrorLists | pypulsepal/pulsepal.py:63-67 | each channel parameter gets 4 copies of its default, and triggerMode gets [0, 0] |
| Protocol.DefaultMirrorKeys | pypulsepal/pulsepal.py:63-67 | the default lists exist for exactly the registered parameters |
| Protocol.ScheduleFitsDefaults | pypulsepal/pulsepal.py:223-241 | with at most 4 output and 2 trigger channels, every call of upload_all finds its cell |
| Protocol.ApplyWritesShape | pypulsepal/pulsepal.py:220-251 | confirmed writes never add, remove or resize a list |
| Protocol.RunWritesAppend | pypulsepal/pulsepal.py:220-251 | a run over a + b is the run over a, then, only if that passes, the run over b from where a left off |
| Protocol.RunWritesMissingFirst | pypulsepal/pulsepal.py:226 | a call whose list is too short raises IndexError before sending anything |
| Protocol.UploadRunMissingCell | pypulsepal/pulsepal.py:223-236 | when call k has no cell and the k calls before it are confirmed, those k are stored and sent, and the run stops with IndexError without sending call k |
| Protocol.UploadBeyondDefaultLists | pypulsepal/pulsepal.py:63-76 | with more than 4 output channels, upload_all programs isBiphasic on channels 0..3, then raises IndexError on channel 4 |
| Protocol.SetAttributes | pypulsepal/pulsepal.py:433-439 | top-level config entries never add or remove a parameter list |
| Protocol.SetAttributesUntouched | pypulsepal/pulsepal.py:433-439 | a list no top-level entry names is kept |
| Protocol.SetAttributesLastWins | pypulsepal/pulsepal.py:433-439 | a list named by several top-level entries ends up with the last one's value |
| Protocol.Overwrite | pypulsepal/pulsepal.py:441-469 | overwriting cells never changes the shape of the lists |
| Protocol.OverwritePasses | pypulsepal/pulsepal.py:441-469 | a section passes iff every entry has a cell |
| Protocol.OverwriteStops | pypulsepal/pulsepal.py:441-469 | the first entry without a cell raises AttributeError (TypeError when the named attribute is no list) or IndexError, keeping the writes before it |
| Protocol.OverwriteUntouched | pypulsepal/pulsepal.py:441-469 | a cell no entry targets keeps its value |
| Protocol.OverwriteLastWins | pypulsepal/pulsepal.py:441-469 | a cell written by several entries ends with the last one's value |
| Protocol.OverwriteAppend | pypulsepal/pulsepal.py:441-469 | two sections in a row: the second runs only when the first passes |
| Protocol.ApplyConfigFlattens | pypulsepal/pulsepal.py:441-469 | the "channels" and "triggers" sections act as one overwrite run over both, in order |
| Session.Drop | pypulsepal/pulsepal.py:94-98 | the flush removes the waiting bytes from the front of the queue, or empties it |
| Session.ScaledTimes | pypulsepal/pulsepal.py:276-279 | each pulse time is multiplied by the cycle frequency, in order |
| Session.WaveformTimes | pypulsepal/pulsepal.py:311-315 | the n waveform times start at 0 and are width × frequency apart |
| Session.VoltageCodes | pypulsepal/pulsepal.py:280-284 | each voltage becomes its DAC code, in order |
| Session.CustomTrainDecodes | pypulsepal/pulsepal.py:286-299 | in a custom-train frame the count decodes to n, each time to its cycles, and each in-range voltage to its DAC code |
| Session.ProfileVoltDtype | pypulsepal/pulsepal.py:119-128 | in both profiles the voltage field's largest value is the DAC maximum |
| Session.PulsePal.constructor | pypulsepal/pulsepal.py:60-77 | the default lists are built from the class defaults; arguments are stored; a zero frequency or opcode falls back to the class default |
| Session.PulsePal.ReadByte | pypulsepal/pulsepal.py:112-115 | one byte is popped, or NoReply on an empty queue |
| Session.PulsePal.ReadConfirmation | pypulsepal/pulsepal.py:100-102 | pops one reply and reports whether it is 1 |
| Session.PulsePal.WriteFrame | pypulsepal/pulsepal.py:109-111 | appends the frame to the log and changes nothing else |
| Session.PulsePal.PulsePalHandshake | pypulsepal/pulsepal.py:104-130 | sends [opcode]["H"] and reads status and one-byte version; on "K" installs that version's profile, otherwise assigns none of the hardware attributes; then drops the waiting bytes |
| Session.PulsePal.Connect | pypulsepal/pulsepal.py:132-148 | passes iff the status is "K", leaving the object connected with the version and profile read; any other status is a ConnectionError that assigns neither; without an opcode it fails with nothing sent, and with fewer than two reply bytes it fails with the queue drained; otherwise it sends the handshake frame and consumes two bytes plus the flushed ones; frequency and channel counts are unchanged |
| Session.PulsePal.SetEncodedOpcode | pypulsepal/pulsepal.py:90-92 | replaces the opcode and nothing else |
| Session.PulsePal.UpdateParam | pypulsepal/pulsepal.py:161-164 | assigns one cell exactly as SetCell says, and leaves the link alone |
| Session.PulsePal.ProgramOneParam | pypulsepal/pulsepal.py:166-206 | the new lists, link and result are ProgramOneStep of the old ones |
| Session.PulsePal.ProgramTriggerChannel | pypulsepal/pulsepal.py:208-218 | the new lists, link and result are ProgramTriggerStep of the old ones |
| Session.PulsePal.SetRestingVoltage | pypulsepal/pulsepal.py:253-265 | the call is program_one_param on restingVoltage |
| Session.PulsePal.UploadCell | pypulsepal/pulsepal.py:226-236 | one call of upload_all, as RunWrites defines it on that call |
| Session.PulsePal.UploadRow | pypulsepal/pulsepal.py:224-236 | the inner loop is RunWrites on the parameter's row |
| Session.PulsePal.UploadRows | pypulsepal/pulsepal.py:223-236 | the outer loop is RunWrites on the rows of the names |
| Session.PulsePal.UploadAll | pypulsepal/pulsepal.py:220-251 | the new lists, link and outcome are RunWrites over UploadSchedule(N, M) from the old state |
| Session.PulsePal.ScalePulseTimes | pypulsepal/pulsepal.py:274-279 | the loop computes ScaledTimes |
| Session.PulsePal.SpacePulseTimes | pypulsepal/pulsepal.py:309-315 | the loop computes WaveformTimes |
| Session.PulsePal.EncodeVoltages | pypulsepal/pulsepal.py:275-284 | the loop computes VoltageCodes at the profile's DAC maximum |
| Session.PulsePal.UploadCustomPulseTrain | pypulsepal/pulsepal.py:267-301 | a bad id or unequal lengths fail before anything is sent; otherwise the custom-train frame of the scaled times and codes is exchanged |
| Session.PulsePal.UploadCustomWaveform | pypulsepal/pulsepal.py:303-337 | a bad id fails before anything is sent; otherwise the custom-train frame of the waveform times and codes is exchanged |
| Session.PulsePal.OverwriteSection | pypulsepal/pulsepal.py:441-469 | the new lists and outcome are Overwrite of the old lists |
| Session.PulsePal.SetConfig | pypulsepal/pulsepal.py:430-471 | the new lists and outcome are ApplyConfig of the old lists; the config is stored only when nothing raised |
| Session.PulsePal.Send | pypulsepal/pulsepal.py:347-348 | one Exchange of the frame |
| Session.PulsePal.SetContinuous | pypulsepal/pulsepal.py:339-348 | exchanges the continuous frame with the channel unshifted |
| Session.PulsePal.TriggerSelectedChannels | pypulsepal/pulsepal.py:350-377 | exchanges the soft-trigger frame with the mask of the selected channels |
| Session.PulsePal.TriggerAllChannels | pypulsepal/pulsepal.py:379-382 | exchanges the soft-trigger frame with mask 15 |
| Session.PulsePal.StopAllOutputs | pypulsepal/pulsepal.py:384-391 | exchanges the abort frame |
| Session.PulsePal.SaveSettings | pypulsepal/pulsepal.py:393-402 | exchanges the frame with command byte 81 |

## Left out

- The ArCOM transport (pypulsepal/pulsepal.py:140-142, 478, 482): opening and closing the port, baud rate and timeouts. It is a foreign library. The model replaces it with the frame log and the reply queue, and a read from an empty queue is `NoReply`.
- Session.PulsePal.PulsePalHandshake: `inWaiting()` is not modelled. The number of waiting bytes is the `waiting` parameter.
- Session.PulsePal.constructor: does not call `connect`, because a Dafny constructor cannot fail. `Connect` is a separate method, and every command requires `Connected()`, the state a Python object is in once `__init__` returns.
- Session.PulsePal.constructor: the `**kwargs` attribute overrides (pypulsepal/pulsepal.py:80-82) are not modelled. They set arbitrary attributes by name.
- Session.PulsePal.constructor: the `or` fallback is modelled for zero only. Other falsy Python values have no counterpart in the integer arguments.
- `_pulsepal_set_display` (pypulsepal/pulsepal.py:150-159): its wire form depends on how the unseen `ArCOM.write_array` treats unpacked arguments.
- `load_from_config` (pypulsepal/pulsepal.py:404-424): ConfigObj file parsing and validation.
- The `config` getter (pypulsepal/pulsepal.py:426-428): it only returns the `config` field.
- Protocol.SetAttributes: the source's `setattr` (pypulsepal/pulsepal.py:433-435) also assigns scalar attributes named at top level, such as `nr_output_channels`, `firmware_opcode` or `hardware_cycle_frequency`. The model leaves them unchanged: `Session.PulsePal.SetConfig`'s ensures fix them. Only parameter lists are assigned from top-level entries.
- Protocol.Overwrite: a section entry naming an attribute that is no list (`nr_output_channels`, `baudrate`, `serial_port`, `firmware_version`) makes the source raise TypeError at pypulsepal/pulsepal.py:445. The model has one error for this case and for a missing attribute (`NoSuchParameter`), because the mirror holds only the parameter lists. The state after the error is the same either way.
- Frames.TriggerMask: only flag arguments are modelled. The source computes `1*channel_1 + 2*channel_2 + 4*channel_3 + 8*channel_4` for any int, and the uint8 encoding wraps a sum of 256 or more.
- Protocol.SetAttributes: Python aliasing between a config list and the attribute it was stored in is not modelled.
- Protocol.Setting: the channel key is taken as an integer already. `int(channel_name)` parsing and its ValueError are left out.
- `tqdm` progress bars, `logging` and `print`: they are output only.
- `__enter__`, `__exit__`, `__del__` (pypulsepal/pulsepal.py:473-482): they call `save_settings` and close the transport. Garbage-collection timing has no counterpart.
- IEEE-754 floats: values and times are reals. numpy's cast to an unsigned dtype is modelled as truncation toward zero, then reduction modulo 256^w (`Codec.Cast`). The float rounding of, for example, 0.001 × 20000 is not modelled. The modulo wrap is NumPy 1.x behaviour; NumPy 2 raises OverflowError for an out-of-range Python int, and an out-of-range float to unsigned cast is platform-defined.
- Codec.EncodeMessageRoundTrip: round trips are stated only for values already in range. Out-of-range values wrap, as `Codec.Cast` states.
- Byte order: numpy writes in host byte order. The model fixes it to little-endian.
- `firmware_opcode = None`: encoding None raises a TypeError. The model reports this as `NoOpcode` from the handshake, and commands require an opcode.
