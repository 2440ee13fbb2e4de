/** The pure part of class PulsePal (pypulsepal/pulsepal.py): the hardware
    profile picked by the handshake, the value transform of
    program_one_param, the soft-trigger mask and the byte frames of every
    command. */
module Frames {
  import opened Codec
  import opened Registry

  // ---------------------------------------------------------------------
  // Hardware profile

  /** What the handshake fixes: hardware model, DAC maximum, dtype table. */
  datatype Profile = Profile(model: int, dacBitMax: int, dtypes: map<string, Dtype>)

  /** The profile _pulsepal_handshake picks for a firmware version. */
  function ProfileFor(firmwareVersion: int): Profile
  {
    if firmwareVersion < 20 then Profile(1, 255, ParamDtypeModel1)
    else Profile(2, 65535, ParamDtypeModel2)
  }

  /** Versions below 20 are model 1 (8-bit DAC, 1-byte voltages), the rest
      model 2 (16-bit DAC, 2-byte voltages); in both, the DAC maximum is the
      largest number a voltage field can carry, and every registered name
      has a dtype. */
  lemma ProfileForIsConsistent(firmwareVersion: int, name: string)
    requires name in VoltageParams
    ensures ProfileFor(firmwareVersion).model == if firmwareVersion < 20 then 1 else 2
    ensures ProfileFor(firmwareVersion).dtypes.Keys == ParamNames.Keys
    ensures name in ProfileFor(firmwareVersion).dtypes
    ensures ProfileFor(firmwareVersion).dacBitMax
            == Pow256(Width(ProfileFor(firmwareVersion).dtypes[name])) - 1
  {
    forall n ensures n in ProfileFor(firmwareVersion).dtypes <==> n in ParamNames {
      TablesShareKeys(n);
    }
    assert Pow256(1) == 256;
    assert Pow256(2) == 65536;
  }

  /** The boundary between the two models lies exactly at version 20. */
  lemma ProfileBoundary()
    ensures ProfileFor(19).model == 1 && ProfileFor(19).dacBitMax == 255
    ensures ProfileFor(20).model == 2 && ProfileFor(20).dacBitMax == 65535
  {
  }

  /** A voltage in [-10 V, 10 V] always fits the voltage field of the
      connected model. */
  lemma VoltageCodeFits(firmwareVersion: int, name: string, volt: real)
    requires name in VoltageParams && -10.0 <= volt <= 10.0
    ensures name in ProfileFor(firmwareVersion).dtypes
    ensures 0 <= VoltsToBytes(volt, ProfileFor(firmwareVersion).dacBitMax)
            < Pow256(Width(ProfileFor(firmwareVersion).dtypes[name]))
  {
    ProfileForIsConsistent(firmwareVersion, name);
    VoltsToBytesInRange(volt, ProfileFor(firmwareVersion).dacBitMax);
  }

  // ---------------------------------------------------------------------
  // Value transform of program_one_param

  /** str.lower on one character (ASCII letters). */
  function LowerChar(c: char): char
  {
    if 'A' <= c <= 'Z' then (c as int + 32) as char else c
  }

  /** str.lower. */
  function Lower(s: string): (r: string)
  {
    seq(|s|, i requires 0 <= i < |s| => LowerChar(s[i]))
  }

  /** The substring test `t in s`. */
  predicate Contains(s: string, t: string)
  {
    exists k :: 0 <= k <= |s| - |t| && OccursAt(s, t, k)
  }

  /** `t` occurs in `s` starting at index `k`. */
  predicate OccursAt(s: string, t: string, k: int)
  {
    0 <= k <= |s| - |t| && s[k..k + |t|] == t
  }

  /** The test program_one_param uses to spot a voltage parameter:
      "volt" in name.lower(). */
  predicate MentionsVolt(name: string)
  {
    Contains(Lower(name), "volt")
  }

  /** No "vo", in any letter case, occurs in `s`. */
  predicate NoVo(s: string)
  {
    forall i :: 0 <= i < |s| - 1 ==> LowerChar(s[i]) != 'v' || LowerChar(s[i + 1]) != 'o'
  }

  /** A name without "vo" in any letter case does not mention "volt". */
  lemma NoVoNotVoltage(name: string)
    requires NoVo(name)
    ensures !MentionsVolt(name)
  {
    var l := Lower(name);
    forall k | 0 <= k <= |l| - 4 ensures !OccursAt(l, "volt", k) {
      assert l[k..k + 4][0] == LowerChar(name[k]) && l[k..k + 4][1] == LowerChar(name[k + 1]);
    }
  }

  /** Among the registered parameters, the substring test picks out exactly
      the three voltage parameters. */
  lemma VoltDetection(name: string)
    requires name in ParamNames
    ensures MentionsVolt(name) <==> name in VoltageParams
  {
    if name in VoltageParams {
      VoltagesMentionVolt(name);
    } else {
      OthersDoNotMentionVolt(name);
    }
  }

  lemma VoltagesMentionVolt(name: string)
    requires name in VoltageParams
    ensures MentionsVolt(name)
  {
    var k := if name == "restingVoltage" then 7 else 6;
    var l := Lower(name);
    assert name[k..k + 4] == "Volt";
    assert OccursAt(l, "volt", k);
  }

  /** No registered name other than the three voltages contains "vo".
      The names are checked three at a time, which keeps each proof small. */
  lemma OthersDoNotMentionVolt(name: string)
    requires name in ParamNames && name !in VoltageParams
    ensures !MentionsVolt(name)
  {
    if name == "isBiphasic" || name == "phase1Duration" || name == "interPhaseInterval" {
      NoVoGroup1(name);
    } else if name == "phase2Duration" || name == "interPulseInterval" || name == "burstDuration" {
      NoVoGroup2(name);
    } else if name == "interBurstInterval" || name == "triggerMode" || name == "pulseTrainDelay" {
      NoVoGroup3(name);
    } else if name == "linkTriggerChannel1" || name == "linkTriggerChannel2" || name == "customTrainID" {
      NoVoGroup4(name);
    } else {
      NoVoGroup5(name);
    }
    NoVoNotVoltage(name);
  }

  lemma NoVoGroup1(name: string)
    requires name == "isBiphasic" || name == "phase1Duration" || name == "interPhaseInterval"
    ensures NoVo(name)
  {
    if name == "isBiphasic" {
      assert NoVo("isBiphasic");
    } else if name == "phase1Duration" {
      assert NoVo("phase1Duration");
    } else {
      assert NoVo("interPhaseInterval");
    }
  }

  lemma NoVoGroup2(name: string)
    requires name == "phase2Duration" || name == "interPulseInterval" || name == "burstDuration"
    ensures NoVo(name)
  {
    if name == "phase2Duration" {
      assert NoVo("phase2Duration");
    } else if name == "interPulseInterval" {
      assert NoVo("interPulseInterval");
    } else {
      assert NoVo("burstDuration");
    }
  }

  lemma NoVoGroup3(name: string)
    requires name == "interBurstInterval" || name == "triggerMode" || name == "pulseTrainDelay"
    ensures NoVo(name)
  {
    if name == "interBurstInterval" {
      assert NoVo("interBurstInterval");
    } else if name == "triggerMode" {
      assert NoVo("triggerMode");
    } else {
      assert NoVo("pulseTrainDelay");
    }
  }

  lemma NoVoGroup4(name: string)
    requires name == "linkTriggerChannel1" || name == "linkTriggerChannel2" || name == "customTrainID"
    ensures NoVo(name)
  {
    if name == "linkTriggerChannel1" {
      assert NoVo("linkTriggerChannel1");
    } else if name == "linkTriggerChannel2" {
      assert NoVo("linkTriggerChannel2");
    } else {
      assert NoVo("customTrainID");
    }
  }

  lemma NoVoGroup5(name: string)
    requires name == "customTrainTarget" || name == "customTrainLoop" || name == "pulseTrainDuration"
    ensures NoVo(name)
  {
    if name == "customTrainTarget" {
      assert NoVo("customTrainTarget");
    } else if name == "customTrainLoop" {
      assert NoVo("customTrainLoop");
    } else {
      assert NoVo("pulseTrainDuration");
    }
  }

  /** The value program_one_param encodes and mirrors: voltage-coded when
      the name mentions "volt", then multiplied by PARAM_SCALING[name]. */
  function WireValue(name: string, value: real, dacBitMax: int): real
    requires name in ParamScaling
  {
    var v := if MentionsVolt(name) then VoltsToBytes(value, dacBitMax) as real else value;
    v * ParamScaling[name] as real
  }

  /** Voltages become DAC codes, durations become ticks at 20000 per
      second, and every other value passes unchanged. */
  lemma WireValueByClass(name: string, value: real, dacBitMax: int)
    requires name in ParamNames
    ensures name in ParamScaling
    ensures name in VoltageParams ==> WireValue(name, value, dacBitMax) == VoltsToBytes(value, dacBitMax) as real
    ensures 4 <= ParamNames[name] <= 11 ==> WireValue(name, value, dacBitMax) == value * 20000.0
    ensures name !in VoltageParams && !(4 <= ParamNames[name] <= 11) ==> WireValue(name, value, dacBitMax) == value
  {
    VoltDetection(name);
    ScalingByCode(name);
  }

  // ---------------------------------------------------------------------
  // Frames

  /** A single number sent as uint8. */
  function U8(v: int): seq<byte>
  {
    EncodeMessage([Scalar(v as real)], UInt8)
  }

  lemma U8Byte(v: int)
    requires 0 <= v < 256
    ensures U8(v) == [v]
  {
    assert Pow256(1) == 256;
    assert EncodeMessage([Scalar(v as real)], UInt8) == EncodeAll([v as real], UInt8) + [];
  }

  /** The handshake request: the opcode, then the character "H". */
  function HandshakeFrame(opcode: int): seq<byte>
  {
    U8(opcode) + [Handshake]
  }

  /** program_one_param's frame. */
  function ProgramOneFrame(opcode: int, code: int, channel: int, value: real, d: Dtype): seq<byte>
  {
    U8(opcode) + U8(ProgramOne as int) + U8(code) + U8(channel + 1)
    + EncodeMessage([Scalar(value)], d)
  }

  /** The custom pulse train frame: the train's opcode, the pulse count,
      the pulse times as uint32 and the voltage codes at the voltage width. */
  function CustomTrainFrame(opcode: int, trainId: int, times: seq<real>, codes: seq<real>, voltDtype: Dtype): seq<byte>
    requires trainId in CustomPulseTrainOpcodes
  {
    U8(opcode) + U8(CustomPulseTrainOpcodes[trainId] as int)
    + EncodeMessage([Scalar(|times| as real)], UInt32)
    + EncodeMessage([Array(times)], UInt32)
    + EncodeMessage([Array(codes)], voltDtype)
  }

  /** set_continuous's frame; the channel goes out as given. */
  function ContinuousFrame(opcode: int, channel: int, state: int): seq<byte>
  {
    U8(opcode) + U8(Continuous as int) + U8(channel) + U8(state)
  }

  /** trigger_selected_channels's frame. */
  function SoftTriggerFrame(opcode: int, mask: int): seq<byte>
  {
    U8(opcode) + U8(SoftTrigger as int) + U8(mask)
  }

  /** stop_all_outputs's frame. */
  function AbortFrame(opcode: int): seq<byte>
  {
    U8(opcode) + U8(AbortAll as int)
  }

  /** save_settings's frame. */
  function SaveFrame(opcode: int): seq<byte>
  {
    U8(opcode) + U8(Disconnect as int)
  }

  /** Python's int(bool). */
  function BoolToInt(b: bool): int
  {
    if b then 1 else 0
  }

  /** The soft-trigger byte: channel k contributes 2^(k-1) when selected. */
  function TriggerMask(channel1: bool, channel2: bool, channel3: bool, channel4: bool): (mask: int)
    ensures 0 <= mask <= 15
  {
    1 * BoolToInt(channel1) + 2 * BoolToInt(channel2) + 4 * BoolToInt(channel3) + 8 * BoolToInt(channel4)
  }

  /** Bit i of the mask is set exactly when channel i+1 is selected. */
  lemma TriggerMaskBits(channel1: bool, channel2: bool, channel3: bool, channel4: bool)
    ensures var mask := TriggerMask(channel1, channel2, channel3, channel4);
      && (mask % 2 == 1 <==> channel1)
      && ((mask / 2) % 2 == 1 <==> channel2)
      && ((mask / 4) % 2 == 1 <==> channel3)
      && ((mask / 8) % 2 == 1 <==> channel4)
  {
  }

  // ---------------------------------------------------------------------
  // Frame layouts

  /** [opcode][74][code][channel+1][value at the dtype's width]. */
  lemma ProgramOneLayout(opcode: int, code: int, channel: int, value: real, d: Dtype)
    requires 0 <= opcode < 256 && 0 <= code < 256 && 0 <= channel + 1 < 256
    requires 0.0 <= value < Pow256(Width(d)) as real
    ensures ProgramOneFrame(opcode, code, channel, value, d)
            == [opcode, ProgramOne as int, code, channel + 1] + EncodeUnsigned(value.Floor, Width(d))
    ensures DecodeUnsigned(ProgramOneFrame(opcode, code, channel, value, d)[4..]) == value.Floor
  {
    U8Byte(opcode);
    U8Byte(ProgramOne as int);
    U8Byte(code);
    U8Byte(channel + 1);
    assert EncodeMessage([Scalar(value)], d) == EncodeElement(value, d) + [];
    DecodeElement(value, d);
  }

  /** [opcode][82][channel][state]. */
  lemma ContinuousLayout(opcode: int, channel: int, state: int)
    requires 0 <= opcode < 256 && 0 <= channel < 256 && 0 <= state < 256
    ensures ContinuousFrame(opcode, channel, state) == [opcode, Continuous as int, channel, state]
  {
    U8Byte(opcode);
    U8Byte(Continuous as int);
    U8Byte(channel);
    U8Byte(state);
  }

  /** [opcode][77][mask]. */
  lemma SoftTriggerLayout(opcode: int, channel1: bool, channel2: bool, channel3: bool, channel4: bool)
    requires 0 <= opcode < 256
    ensures SoftTriggerFrame(opcode, TriggerMask(channel1, channel2, channel3, channel4))
            == [opcode, SoftTrigger as int, TriggerMask(channel1, channel2, channel3, channel4)]
    ensures SoftTriggerFrame(opcode, TriggerMask(true, true, true, true)) == [opcode, SoftTrigger as int, 15]
  {
    U8Byte(opcode);
    U8Byte(SoftTrigger as int);
    U8Byte(TriggerMask(channel1, channel2, channel3, channel4));
    U8Byte(15);
  }

  /** Abort is [opcode][80] and save is [opcode][81], with no payload. */
  lemma AbortAndSaveLayout(opcode: int)
    requires 0 <= opcode < 256
    ensures AbortFrame(opcode) == [opcode, AbortAll as int]
    ensures SaveFrame(opcode) == [opcode, Disconnect as int]
  {
    U8Byte(opcode);
    U8Byte(AbortAll as int);
    U8Byte(Disconnect as int);
  }

  lemma SliceOfLeft<T>(a: seq<T>, b: seq<T>, lo: int, hi: int)
    requires 0 <= lo <= hi <= |a|
    ensures (a + b)[lo..hi] == a[lo..hi]
  {
  }

  lemma SliceOfRight<T>(a: seq<T>, b: seq<T>, lo: int, hi: int)
    requires |a| <= lo <= hi <= |a| + |b|
    ensures (a + b)[lo..hi] == b[lo - |a|..hi - |a|]
  {
  }

  /** The custom pulse train frame as the concatenation of its fields. */
  lemma CustomTrainParts(opcode: int, trainId: int, times: seq<real>, codes: seq<real>, voltDtype: Dtype)
    requires trainId in CustomPulseTrainOpcodes && 0 <= opcode < 256
    ensures CustomTrainFrame(opcode, trainId, times, codes, voltDtype)
            == [opcode, ProgramCustom1 as int] + EncodeAll([|times| as real], UInt32)
               + EncodeAll(times, UInt32) + EncodeAll(codes, voltDtype)
  {
    EncodeSinglePart(Scalar(|times| as real), UInt32);
    EncodeSinglePart(Array(times), UInt32);
    EncodeSinglePart(Array(codes), voltDtype);
    U8Byte(opcode);
    U8Byte(ProgramCustom1 as int);
    assert U8(opcode) + U8(ProgramCustom1 as int) == [opcode, ProgramCustom1 as int];
  }

  /** The custom pulse train frame cut into its four fields. */
  lemma CustomTrainFields(opcode: int, trainId: int, times: seq<real>, codes: seq<real>, voltDtype: Dtype)
    requires trainId in CustomPulseTrainOpcodes && 0 <= opcode < 256
    ensures var f := CustomTrainFrame(opcode, trainId, times, codes, voltDtype);
      var n := |times|;
      && |f| == 6 + 4 * n + |codes| * Width(voltDtype)
      && f[..2] == [opcode, ProgramCustom1 as int]
      && f[2..6] == EncodeAll([n as real], UInt32)
      && f[6..6 + 4 * n] == EncodeAll(times, UInt32)
      && f[6 + 4 * n..] == EncodeAll(codes, voltDtype)
  {
    var n := |times|;
    var head: seq<byte> := [opcode, ProgramCustom1 as int];
    var count := EncodeAll([n as real], UInt32);
    var ts := EncodeAll(times, UInt32);
    var cs := EncodeAll(codes, voltDtype);
    assert |head| == 2 && |count| == 4 && |ts| == 4 * n && |cs| == |codes| * Width(voltDtype);
    CustomTrainParts(opcode, trainId, times, codes, voltDtype);
    var f := CustomTrainFrame(opcode, trainId, times, codes, voltDtype);
    assert f == ((head + count) + ts) + cs;
    SliceOfLeft((head + count) + ts, cs, 0, 2);
    SliceOfLeft(head + count, ts, 0, 2);
    SliceOfLeft((head + count) + ts, cs, 2, 6);
    SliceOfLeft(head + count, ts, 2, 6);
    SliceOfLeft((head + count) + ts, cs, 6, 6 + 4 * n);
    SliceOfRight(head + count, ts, 6, 6 + 4 * n);
  }

  /** An in-range element decodes back from its slot of an encoded array
      that sits at offset `off` of a longer byte string. */
  lemma DecodeSlot(f: seq<byte>, off: nat, vs: seq<real>, d: Dtype, i: nat)
    requires i < |vs| && off + |vs| * Width(d) <= |f|
    requires f[off..off + |vs| * Width(d)] == EncodeAll(vs, d)
    requires 0.0 <= vs[i] < Pow256(Width(d)) as real
    ensures off + i * Width(d) + Width(d) <= |f|
    ensures DecodeUnsigned(f[off + i * Width(d)..off + i * Width(d) + Width(d)]) == vs[i].Floor
  {
    SlotBytes(f, off, vs, d, i);
    DecodeElement(vs[i], d);
  }

  /** The bytes of slot `i` of an encoded array at offset `off`. */
  lemma SlotBytes(f: seq<byte>, off: nat, vs: seq<real>, d: Dtype, i: nat)
    requires i < |vs| && off + |vs| * Width(d) <= |f|
    requires f[off..off + |vs| * Width(d)] == EncodeAll(vs, d)
    ensures off + i * Width(d) + Width(d) <= |f|
    ensures f[off + i * Width(d)..off + i * Width(d) + Width(d)] == EncodeElement(vs[i], d)
  {
    EncodeAllAt(vs, d, i);
    SliceInside(f, off, |vs| * Width(d), EncodeAll(vs, d), i * Width(d), Width(d), EncodeElement(vs[i], d));
  }

  /** A slice of a byte string inside a part that is known. */
  lemma SliceInside<T>(f: seq<T>, off: nat, n: int, e: seq<T>, lo: int, len: nat, x: seq<T>)
    requires |e| == n && off + n <= |f| && f[off..off + n] == e
    requires 0 <= lo && lo + len <= |e| && e[lo..lo + len] == x
    ensures off + lo + len <= |f|
    ensures f[off + lo..off + lo + len] == x
  {
    var y := f[off + lo..off + lo + len];
    assert forall k :: 0 <= k < len ==> y[k] == x[k];
  }

  /** [opcode][75][n: uint32][n times: uint32][n voltage codes]: the frame
      has that length, starts with the opcode and 75, and its count field
      decodes back to the number of pulses. */
  lemma CustomTrainLayout(opcode: int, trainId: int, times: seq<real>, codes: seq<real>, voltDtype: Dtype)
    requires trainId in CustomPulseTrainOpcodes && 0 <= opcode < 256
    requires |times| == |codes| && |times| < Pow256(4)
    ensures var f := CustomTrainFrame(opcode, trainId, times, codes, voltDtype);
      var n := |times|;
      && |f| == 6 + 4 * n + n * Width(voltDtype)
      && f[..2] == [opcode, 75]
      && DecodeUnsigned(f[2..6]) == n
  {
    var n := |times|;
    var f := CustomTrainFrame(opcode, trainId, times, codes, voltDtype);
    CustomTrainFields(opcode, trainId, times, codes, voltDtype);
    assert Width(UInt32) == 4 && |[n as real]| * 4 == 4;
    assert f[2..2 + 1 * 4] == EncodeAll([n as real], UInt32);
    DecodeSlot(f, 2, [n as real], UInt32, 0);
  }

  /** Every in-range pulse time decodes back from its uint32 slot. */
  lemma CustomTrainTimeSlot(opcode: int, trainId: int, times: seq<real>, codes: seq<real>, voltDtype: Dtype, i: nat)
    requires trainId in CustomPulseTrainOpcodes && 0 <= opcode < 256
    requires i < |times| && 0.0 <= times[i] < Pow256(4) as real
    ensures var f := CustomTrainFrame(opcode, trainId, times, codes, voltDtype);
      && 10 + 4 * i <= |f|
      && DecodeUnsigned(f[6 + 4 * i..10 + 4 * i]) == times[i].Floor
  {
    var f := CustomTrainFrame(opcode, trainId, times, codes, voltDtype);
    CustomTrainFields(opcode, trainId, times, codes, voltDtype);
    assert Width(UInt32) == 4 && |times| * 4 == 4 * |times|;
    assert f[6..6 + |times| * 4] == EncodeAll(times, UInt32);
    DecodeSlot(f, 6, times, UInt32, i);
  }

  /** Every in-range voltage code decodes back from its slot, whose width
      is the profile's voltage width. */
  lemma CustomTrainCodeSlot(opcode: int, trainId: int, times: seq<real>, codes: seq<real>, voltDtype: Dtype, i: nat)
    requires trainId in CustomPulseTrainOpcodes && 0 <= opcode < 256
    requires i < |codes| && 0.0 <= codes[i] < Pow256(Width(voltDtype)) as real
    ensures var f := CustomTrainFrame(opcode, trainId, times, codes, voltDtype);
      var lo := 6 + 4 * |times| + i * Width(voltDtype);
      && 0 <= lo && lo + Width(voltDtype) <= |f|
      && DecodeUnsigned(f[lo..lo + Width(voltDtype)]) == codes[i].Floor
  {
    CustomTrainFields(opcode, trainId, times, codes, voltDtype);
    DecodeTail(CustomTrainFrame(opcode, trainId, times, codes, voltDtype), 6 + 4 * |times|, codes, voltDtype, i);
  }

  /** An in-range element decodes back from its slot of an encoded array
      that ends a longer byte string at offset `off`. */
  lemma DecodeTail(f: seq<byte>, off: nat, vs: seq<real>, d: Dtype, i: nat)
    requires off <= |f| && f[off..] == EncodeAll(vs, d)
    requires i < |vs| && 0.0 <= vs[i] < Pow256(Width(d)) as real
    ensures off + i * Width(d) + Width(d) <= |f|
    ensures DecodeUnsigned(f[off + i * Width(d)..off + i * Width(d) + Width(d)]) == vs[i].Floor
  {
    assert f[off..off + |vs| * Width(d)] == f[off..];
    DecodeSlot(f, off, vs, d, i);
  }

  /** A phase duration of 1 ms becomes 20 ticks. */
  lemma DurationTicksExample()
    ensures WireValue("phase1Duration", 0.001, 65535) == 20.0
  {
    WireValueByClass("phase1Duration", 0.001, 65535);
  }

}
