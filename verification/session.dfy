/** Class PulsePal (pypulsepal/pulsepal.py) as a Dafny class. The ArCOM
    serial link becomes two fields: the log of frames written so far and
    the queue of bytes the device will send. Every command is proved
    against the value-level definitions of module Protocol. */
module Session {
  import opened Outcomes
  import opened Codec
  import opened Registry
  import opened Frames
  import opened Protocol

  /** The class attributes the per-parameter lists are sized from. */
  const ClassNrOutputChannels: nat := 4
  const ClassNrTriggerChannels: nat := 2

  /** The class attribute hardware_cycle_frequency. */
  const ClassCycleFrequency: int := 20000

  /** _clear_read_queue: reads the `n` bytes waiting, or what is left of
      the queue when fewer remain. */
  function Drop(bs: seq<byte>, n: nat): (r: seq<byte>)
    ensures |r| == if n <= |bs| then |bs| - n else 0
    ensures bs == bs[..|bs| - |r|] + r
  {
    if n <= |bs| then bs[n..] else []
  }

  /** upload_custom_pulse_train's pulse times in hardware cycles. */
  function ScaledTimes(times: seq<real>, cycleFrequency: int): (r: seq<real>)
    ensures |r| == |times|
    ensures forall i :: 0 <= i < |r| ==> r[i] == times[i] * cycleFrequency as real
  {
    seq(|times|, i requires 0 <= i < |times| => times[i] * cycleFrequency as real)
  }

  /** upload_custom_waveform's pulse times: `n` samples `width` seconds
      apart, in hardware cycles, starting at 0. */
  function WaveformTimes(n: nat, width: real, cycleFrequency: int): (r: seq<real>)
    ensures |r| == n
    ensures n > 0 ==> r[0] == 0.0
    ensures forall i :: 0 <= i < n - 1 ==> r[i + 1] - r[i] == width * cycleFrequency as real
  {
    seq(n, i => i as real * width * cycleFrequency as real)
  }

  /** The DAC code of every voltage, as the custom uploads compute them. */
  function VoltageCodes(volts: seq<real>, dacBitMax: int): (r: seq<real>)
    ensures |r| == |volts|
    ensures forall i :: 0 <= i < |r| ==> r[i] == VoltsToBytes(volts[i], dacBitMax) as real
  {
    seq(|volts|, i requires 0 <= i < |volts| => VoltsToBytes(volts[i], dacBitMax) as real)
  }

  /** A custom train frame as the uploads build it, for a voltage field
      whose largest number is the DAC maximum (as in both hardware
      profiles): the count field holds the number of pulses, every
      in-range time decodes back to its whole number of cycles, and every
      voltage in [-10 V, 10 V] decodes back to its DAC code. */
  lemma CustomTrainDecodes(opcode: int, trainId: int, times: seq<real>, volts: seq<real>,
                           voltDtype: Dtype, dacBitMax: int, i: nat)
    requires trainId in CustomPulseTrainOpcodes && 0 <= opcode < 256
    requires dacBitMax == Pow256(Width(voltDtype)) - 1
    requires |times| == |volts| && |times| < Pow256(4) && i < |times|
    requires 0.0 <= times[i] < Pow256(4) as real && -10.0 <= volts[i] <= 10.0
    ensures var f := CustomTrainFrame(opcode, trainId, times, VoltageCodes(volts, dacBitMax), voltDtype);
      var lo := 6 + 4 * |times| + i * Width(voltDtype);
      && |f| == 6 + 4 * |times| + |times| * Width(voltDtype)
      && 10 + 4 * i <= |f| && 0 <= lo && lo + Width(voltDtype) <= |f|
      && DecodeUnsigned(f[2..6]) == |times|
      && DecodeUnsigned(f[6 + 4 * i..10 + 4 * i]) == times[i].Floor
      && DecodeUnsigned(f[lo..lo + Width(voltDtype)]) == VoltsToBytes(volts[i], dacBitMax)
  {
    var codes := VoltageCodes(volts, dacBitMax);
    VoltsToBytesInRange(volts[i], dacBitMax);
    CustomTrainLayout(opcode, trainId, times, codes, voltDtype);
    CustomTrainTimeSlot(opcode, trainId, times, codes, voltDtype, i);
    CustomTrainCodeSlot(opcode, trainId, times, codes, voltDtype, i);
  }

  /** Both hardware profiles meet the condition of CustomTrainDecodes. */
  lemma ProfileVoltDtype(firmwareVersion: int)
    ensures Wired(ProfileFor(firmwareVersion))
    ensures ProfileFor(firmwareVersion).dacBitMax == Pow256(Width(VoltDtype(ProfileFor(firmwareVersion)))) - 1
  {
    HandshakeProfilesWired(firmwareVersion);
    ProfileForIsConsistent(firmwareVersion, "phase1Voltage");
  }

  class PulsePal {
    /** Every frame written to the serial port, in order. */
    var sent: seq<seq<byte>>
    /** The bytes the device has yet to deliver, in order. */
    var replies: seq<byte>

    var firmwareVersion: Option<int>
    /** hardware_model, hardware_dac_bit_max and param_dtype_lookup, which
        the handshake sets together; None until it succeeds. */
    var profile: Option<Profile>
    var hardwareCycleFrequency: int
    var firmwareOpcode: Option<int>
    var nrOutputChannels: int
    var nrTriggerChannels: int
    /** The per-parameter lists __init__ creates with setattr. */
    var params: Mirror
    var config: Option<Config>

    /** The link as a value. */
    function Wire(): Link
      reads this
    {
      Link(sent, replies)
    }

    /** The attributes only construction, the handshake and the config
        setter assign. */
    function Fixed(): (Option<int>, Option<Profile>, int, Option<int>, int, int, Option<Config>)
      reads this
    {
      (firmwareVersion, profile, hardwareCycleFrequency, firmwareOpcode, nrOutputChannels, nrTriggerChannels, config)
    }

    /** The object has an opcode and has completed the handshake; every
        object the Python constructor returns is in this state. */
    predicate Connected()
      reads this
    {
      firmwareOpcode.Some? && profile.Some? && Wired(profile.value)
    }

    /** __init__ up to the call to connect: the lists are sized from the
        class defaults 4 and 2, then the arguments are stored; a zero
        cycle frequency or opcode falls back to the class default. The
        device's future bytes are given as `replies`. */
    constructor(cycleFrequency: int, nrOutputChannels: int, nrTriggerChannels: int,
                firmwareOpcode: int, replies: seq<byte>)
      ensures params == DefaultMirror()
      ensures sent == [] && this.replies == replies
      ensures firmwareVersion == None && profile == None && config == None
      ensures hardwareCycleFrequency == if cycleFrequency == 0 then ClassCycleFrequency else cycleFrequency
      ensures this.firmwareOpcode == if firmwareOpcode == 0 then None else Some(firmwareOpcode)
      ensures this.nrOutputChannels == nrOutputChannels && this.nrTriggerChannels == nrTriggerChannels
    {
      var lists: Mirror := map[];
      var i := 0;
      while i < |ChannelParamDefaults|
        invariant 0 <= i <= |ChannelParamDefaults|
        invariant lists == Fill(map[], ChannelParamDefaults[..i], ClassNrOutputChannels)
      {
        assert ChannelParamDefaults[..i + 1][..i] == ChannelParamDefaults[..i];
        lists := lists[ChannelParamDefaults[i].0 := Repeat(ChannelParamDefaults[i].1, ClassNrOutputChannels)];
        i := i + 1;
      }
      assert ChannelParamDefaults[..i] == ChannelParamDefaults;
      var channelLists := lists;
      var j := 0;
      while j < |TriggerParamDefaults|
        invariant 0 <= j <= |TriggerParamDefaults|
        invariant lists == Fill(channelLists, TriggerParamDefaults[..j], ClassNrTriggerChannels)
      {
        assert TriggerParamDefaults[..j + 1][..j] == TriggerParamDefaults[..j];
        lists := lists[TriggerParamDefaults[j].0 := Repeat(TriggerParamDefaults[j].1, ClassNrTriggerChannels)];
        j := j + 1;
      }
      assert TriggerParamDefaults[..j] == TriggerParamDefaults;
      params := lists;
      sent := [];
      this.replies := replies;
      firmwareVersion := None;
      profile := None;
      config := None;
      hardwareCycleFrequency := if cycleFrequency == 0 then ClassCycleFrequency else cycleFrequency;
      this.firmwareOpcode := if firmwareOpcode == 0 then None else Some(firmwareOpcode);
      this.nrOutputChannels := nrOutputChannels;
      this.nrTriggerChannels := nrTriggerChannels;
    }

    /** One byte from the device; an empty queue is a read that times out. */
    method ReadByte() returns (r: Result<byte>)
      modifies this
      ensures replies == if old(replies) == [] then [] else old(replies)[1..]
      ensures r == if old(replies) == [] then Err(NoReply) else Ok(old(replies)[0])
      ensures sent == old(sent) && params == old(params) && Fixed() == old(Fixed())
    {
      if replies == [] {
        r := Err(NoReply);
      } else {
        r := Ok(replies[0]);
        replies := replies[1..];
      }
    }

    /** _read_confirmation: the next byte, compared with 1. */
    method ReadConfirmation() returns (r: Result<bool>)
      modifies this
      ensures (Wire(), r) == Confirm(old(Wire()))
      ensures params == old(params) && Fixed() == old(Fixed())
    {
      var b := ReadByte();
      match b
      case Err(e) => r := Err(e);
      case Ok(v) => r := Ok(v == ProgramOneOk);
    }

    /** Write one frame to the port. */
    method WriteFrame(frame: seq<byte>)
      modifies this
      ensures sent == old(sent) + [frame]
      ensures replies == old(replies) && params == old(params) && Fixed() == old(Fixed())
    {
      sent := sent + [frame];
    }

    /** _pulsepal_handshake: send the opcode and "H", read the status
        character and the firmware version as one uint8, drop the `waiting`
        bytes still queued, and on "K" install the profile of that
        version. Returns whether the status was "K". */
    method PulsePalHandshake(waiting: nat) returns (r: Result<bool>)
      modifies this
      ensures params == old(params) && config == old(config) && firmwareOpcode == old(firmwareOpcode)
      ensures hardwareCycleFrequency == old(hardwareCycleFrequency)
      ensures nrOutputChannels == old(nrOutputChannels) && nrTriggerChannels == old(nrTriggerChannels)
      ensures old(firmwareOpcode).None? ==> r == Err(NoOpcode) && Fixed() == old(Fixed()) && Wire() == old(Wire())
      ensures old(firmwareOpcode).Some? ==> sent == old(sent) + [HandshakeFrame(old(firmwareOpcode).value)]
      ensures old(firmwareOpcode).Some? && |old(replies)| < 2 ==>
                r == Err(NoReply) && replies == [] && Fixed() == old(Fixed())
      ensures old(firmwareOpcode).Some? && |old(replies)| >= 2 ==>
                && r == Ok(old(replies)[0] == HandshakeOk)
                && replies == Drop(old(replies)[2..], waiting)
                && (r.value ==> firmwareVersion == Some(old(replies)[1] as int)
                                && profile == Some(ProfileFor(old(replies)[1] as int)))
                && (!r.value ==> firmwareVersion == old(firmwareVersion) && profile == old(profile))
    {
      if firmwareOpcode.None? {
        return Err(NoOpcode);
      }
      WriteFrame(HandshakeFrame(firmwareOpcode.value));
      var status := ReadByte();
      if status.Err? {
        return Err(status.error);
      }
      var version := ReadByte();
      if version.Err? {
        return Err(version.error);
      }
      replies := Drop(replies, waiting);
      var ok := status.value == HandshakeOk;
      if ok {
        firmwareVersion := Some(version.value as int);
        profile := Some(ProfileFor(version.value as int));
      }
      r := Ok(ok);
    }

    /** connect, from the handshake on: a failed handshake raises
        ConnectionError; a successful one leaves the object connected. */
    method Connect(waiting: nat) returns (o: Outcome)
      modifies this
      ensures params == old(params) && config == old(config) && firmwareOpcode == old(firmwareOpcode)
      ensures hardwareCycleFrequency == old(hardwareCycleFrequency)
      ensures nrOutputChannels == old(nrOutputChannels) && nrTriggerChannels == old(nrTriggerChannels)
      ensures o == Pass <==> old(firmwareOpcode).Some? && |old(replies)| >= 2 && old(replies)[0] == HandshakeOk
      ensures old(firmwareOpcode).None? ==> o == Fail(NoOpcode) && Fixed() == old(Fixed()) && Wire() == old(Wire())
      ensures old(firmwareOpcode).Some? ==> sent == old(sent) + [HandshakeFrame(old(firmwareOpcode).value)]
      ensures old(firmwareOpcode).Some? && |old(replies)| < 2 ==>
                o == Fail(NoReply) && replies == [] && Fixed() == old(Fixed())
      ensures old(firmwareOpcode).Some? && |old(replies)| >= 2 ==> replies == Drop(old(replies)[2..], waiting)
      ensures o == Pass ==>
                && Connected()
                && firmwareVersion == Some(old(replies)[1] as int)
                && profile == Some(ProfileFor(old(replies)[1] as int))
      ensures old(firmwareOpcode).Some? && |old(replies)| >= 2 && old(replies)[0] != HandshakeOk ==>
                && o == Fail(ConnectionFailed)
                && firmwareVersion == old(firmwareVersion)
                && profile == old(profile)
    {
      var r := PulsePalHandshake(waiting);
      match r
      case Err(e) => o := Fail(e);
      case Ok(ok) =>
        if ok {
          HandshakeProfilesWired(firmwareVersion.value);
          o := Pass;
        } else {
          o := Fail(ConnectionFailed);
        }
    }

    /** The encoded_opcode setter: replaces the firmware opcode. */
    method SetEncodedOpcode(value: Option<int>)
      modifies this
      ensures firmwareOpcode == value
      ensures firmwareVersion == old(firmwareVersion) && profile == old(profile) && config == old(config)
      ensures hardwareCycleFrequency == old(hardwareCycleFrequency)
      ensures nrOutputChannels == old(nrOutputChannels) && nrTriggerChannels == old(nrTriggerChannels)
      ensures Wire() == old(Wire()) && params == old(params)
    {
      firmwareOpcode := value;
    }

    /** _update_param: assign one cell of a parameter's list. */
    method UpdateParam(channel: int, name: string, value: real) returns (o: Outcome)
      modifies this
      ensures o.Pass? <==> SetCell(old(params), name, channel, value).Ok?
      ensures params == if o.Pass? then SetCell(old(params), name, channel, value).value else old(params)
      ensures o.Fail? ==> o.error == SetCell(old(params), name, channel, value).error
      ensures Wire() == old(Wire()) && Fixed() == old(Fixed())
    {
      match SetCell(params, name, channel, value)
      case Ok(m) =>
        params := m;
        o := Pass;
      case Err(e) =>
        o := Fail(e);
    }

    /** program_one_param: exactly ProgramOneStep on the object's lists and
        link, with its opcode and profile. */
    method ProgramOneParam(channel: int, id: Identifier, value: real) returns (r: Result<bool>)
      requires Connected()
      modifies this
      ensures Step(params, Wire(), r)
              == ProgramOneStep(old(params), old(Wire()), old(firmwareOpcode).value, old(profile).value, channel, id, value)
      ensures Fixed() == old(Fixed())
    {
      var opcode, p := firmwareOpcode.value, profile.value;
      var resolved := ResolveParamNameCodePair(id);
      if resolved.Err? {
        return Err(resolved.error);
      }
      var (name, code) := resolved.value;
      TablesShareKeys(name);
      var v := WireValue(name, value, p.dacBitMax);
      WriteFrame(ProgramOneFrame(opcode, code, channel, v, p.dtypes[name]));
      r := ReadConfirmation();
      if r == Ok(true) {
        var o := UpdateParam(channel, name, v);
        if o.Fail? {
          r := Err(o.error);
        }
      }
    }

    /** program_trigger_channel: the mode, resolved against the parameter
        tables, programmed as the channel's triggerMode. */
    method ProgramTriggerChannel(triggerChannel: int, mode: Identifier) returns (r: Result<bool>)
      requires Connected()
      modifies this
      ensures Step(params, Wire(), r)
              == ProgramTriggerStep(old(params), old(Wire()), old(firmwareOpcode).value, old(profile).value, triggerChannel, mode)
      ensures Fixed() == old(Fixed())
    {
      var resolved := ResolveTriggerNameCodePair(mode);
      if resolved.Err? {
        return Err(resolved.error);
      }
      r := ProgramOneParam(triggerChannel, Name("triggerMode"), resolved.value.1 as real);
    }

    /** set_resting_voltage: program restingVoltage on one channel. */
    method SetRestingVoltage(channel: int, voltage: real) returns (r: Result<bool>)
      requires Connected()
      modifies this
      ensures Step(params, Wire(), r)
              == ProgramOneStep(old(params), old(Wire()), old(firmwareOpcode).value, old(profile).value,
                                channel, Name("restingVoltage"), voltage)
      ensures Fixed() == old(Fixed())
    {
      r := ProgramOneParam(channel, Name("restingVoltage"), voltage);
    }

    /** One call of upload_all: read the cell (an AttributeError, or a
        TypeError when the named attribute is no list, or an IndexError
        when it is missing), program it, and treat a refusal
        as a failure. On success the run continues with the rest of the
        schedule; on failure the run ends here. */
    method UploadCell(name: string, channel: nat, ghost rest: seq<Write>) returns (o: Outcome)
      requires Connected()
      modifies this
      ensures o.Pass? ==>
                RunWrites(old(params), old(Wire()), old(firmwareOpcode).value, old(profile).value, [Write(name, channel)] + rest)
                == RunWrites(params, Wire(), old(firmwareOpcode).value, old(profile).value, rest)
      ensures o.Fail? ==>
                Run(params, Wire(), o)
                == RunWrites(old(params), old(Wire()), old(firmwareOpcode).value, old(profile).value, [Write(name, channel)] + rest)
      ensures Fixed() == old(Fixed())
    {
      ghost var ws := [Write(name, channel)] + rest;
      assert ws[0] == Write(name, channel) && ws[1..] == rest;
      if name !in params {
        return Fail(NoSuchParameter);
      }
      if channel >= |params[name]| {
        return Fail(IndexOutOfRange);
      }
      var r := ProgramOneParam(channel, Name(name), params[name][channel]);
      match r
      case Err(e) => o := Fail(e);
      case Ok(ok) => o := if ok then Pass else Fail(UploadRejected);
    }

    /** One parameter on channels 0 .. n-1, as upload_all programs it;
        on success the run continues with `rest`, on failure it ends. */
    method UploadRow(name: string, n: int, ghost rest: seq<Write>) returns (o: Outcome)
      requires Connected()
      modifies this
      ensures o.Pass? ==>
                RunWrites(old(params), old(Wire()), old(firmwareOpcode).value, old(profile).value, Row(name, n) + rest)
                == RunWrites(params, Wire(), old(firmwareOpcode).value, old(profile).value, rest)
      ensures o.Fail? ==>
                Run(params, Wire(), o)
                == RunWrites(old(params), old(Wire()), old(firmwareOpcode).value, old(profile).value, Row(name, n) + rest)
      ensures Fixed() == old(Fixed())
    {
      ghost var row := Row(name, n);
      ghost var target := RunWrites(params, Wire(), firmwareOpcode.value, profile.value, row + rest);
      assert row[0..] == row;
      o := Pass;
      var c := 0;
      while c < n
        invariant 0 <= c <= |row|
        invariant Fixed() == old(Fixed())
        invariant o.Pass?
        invariant RunWrites(params, Wire(), firmwareOpcode.value, profile.value, row[c..] + rest) == target
      {
        SuffixCons(row, c, rest);
        o := UploadCell(name, c, row[c + 1..] + rest);
        if o.Fail? {
          return;
        }
        c := c + 1;
      }
      assert row[c..] + rest == rest;
    }

    /** The rows of several parameters, one after the other, as the outer
        loop of upload_all programs them. */
    method UploadRows(names: seq<string>, n: int, ghost rest: seq<Write>) returns (o: Outcome)
      requires Connected()
      modifies this
      ensures o.Pass? ==>
                RunWrites(old(params), old(Wire()), old(firmwareOpcode).value, old(profile).value, Rows(names, n) + rest)
                == RunWrites(params, Wire(), old(firmwareOpcode).value, old(profile).value, rest)
      ensures o.Fail? ==>
                Run(params, Wire(), o)
                == RunWrites(old(params), old(Wire()), old(firmwareOpcode).value, old(profile).value, Rows(names, n) + rest)
      ensures Fixed() == old(Fixed())
    {
      ghost var target := RunWrites(params, Wire(), firmwareOpcode.value, profile.value, Rows(names, n) + rest);
      assert names[0..] == names;
      o := Pass;
      var i := 0;
      while i < |names|
        invariant 0 <= i <= |names|
        invariant Fixed() == old(Fixed())
        invariant o.Pass?
        invariant RunWrites(params, Wire(), firmwareOpcode.value, profile.value, Rows(names[i..], n) + rest) == target
      {
        RowsFrom(names, i, n, rest);
        o := UploadRow(names[i], n, Rows(names[i + 1..], n) + rest);
        if o.Fail? {
          return;
        }
        i := i + 1;
      }
      assert Rows(names[i..], n) + rest == rest;
    }

    /** upload_all: every channel parameter on every output channel, then
        triggerMode on every trigger channel, stopping at the first call
        that fails; exactly the run RunWrites defines on UploadSchedule. */
    method UploadAll() returns (o: Outcome)
      requires Connected()
      modifies this
      ensures Run(params, Wire(), o)
              == RunWrites(old(params), old(Wire()), old(firmwareOpcode).value, old(profile).value,
                           UploadSchedule(old(nrOutputChannels), old(nrTriggerChannels)))
      ensures Fixed() == old(Fixed())
    {
      ghost var trigs := Row("triggerMode", nrTriggerChannels);
      assert trigs + [] == trigs;
      o := UploadRows(DefaultNames(ChannelParamDefaults), nrOutputChannels, trigs);
      if o.Pass? {
        o := UploadRow("triggerMode", nrTriggerChannels, []);
      }
    }

    /** The pulse times of upload_custom_pulse_train, in cycles. */
    method ScalePulseTimes(times: seq<real>) returns (scaled: seq<real>)
      ensures scaled == ScaledTimes(times, hardwareCycleFrequency)
    {
      scaled := [];
      var i := 0;
      while i < |times|
        invariant 0 <= i <= |times| && |scaled| == i
        invariant forall j :: 0 <= j < i ==> scaled[j] == times[j] * hardwareCycleFrequency as real
      {
        scaled := scaled + [times[i] * hardwareCycleFrequency as real];
        i := i + 1;
      }
    }

    /** The pulse times of upload_custom_waveform, in cycles. */
    method SpacePulseTimes(n: nat, width: real) returns (times: seq<real>)
      ensures times == WaveformTimes(n, width, hardwareCycleFrequency)
    {
      times := [];
      var i := 0;
      while i < n
        invariant 0 <= i <= n && |times| == i
        invariant forall j :: 0 <= j < i ==> times[j] == j as real * width * hardwareCycleFrequency as real
      {
        times := times + [i as real * width * hardwareCycleFrequency as real];
        i := i + 1;
      }
      assert forall j :: 0 <= j < n ==> WaveformTimes(n, width, hardwareCycleFrequency)[j] == times[j];
    }

    /** The voltage codes of the custom uploads, one per voltage. */
    method EncodeVoltages(volts: seq<real>) returns (codes: seq<real>)
      requires Connected()
      ensures codes == VoltageCodes(volts, profile.value.dacBitMax)
    {
      codes := [];
      var i := 0;
      while i < |volts|
        invariant 0 <= i <= |volts| && |codes| == i
        invariant forall j :: 0 <= j < i ==> codes[j] == VoltsToBytes(volts[j], profile.value.dacBitMax) as real
      {
        codes := codes + [VoltsToBytes(volts[i], profile.value.dacBitMax) as real];
        i := i + 1;
      }
    }

    /** upload_custom_pulse_train: the train id must be 0 or 1 and the two
        lists equally long (AssertionError otherwise, before anything is
        sent); the times are scaled to cycles, the voltages coded, and the
        frame is sent and confirmed. */
    method UploadCustomPulseTrain(trainId: int, times: seq<real>, volts: seq<real>) returns (r: Result<bool>)
      requires Connected()
      modifies this
      ensures trainId !in CustomPulseTrainOpcodes ==> r == Err(InvalidTrainId) && Wire() == old(Wire())
      ensures trainId in CustomPulseTrainOpcodes && |times| != |volts| ==>
                r == Err(LengthMismatch) && Wire() == old(Wire())
      ensures trainId in CustomPulseTrainOpcodes && |times| == |volts| ==>
                && (Wire(), r) == Exchange(old(Wire()),
                     CustomTrainFrame(old(firmwareOpcode).value, trainId,
                                      ScaledTimes(times, old(hardwareCycleFrequency)),
                                      VoltageCodes(volts, old(profile).value.dacBitMax),
                                      VoltDtype(old(profile).value)))
      ensures params == old(params) && Fixed() == old(Fixed())
    {
      if trainId !in CustomPulseTrainOpcodes {
        return Err(InvalidTrainId);
      }
      if |times| != |volts| {
        return Err(LengthMismatch);
      }
      var scaled := ScalePulseTimes(times);
      var codes := EncodeVoltages(volts);
      r := Send(CustomTrainFrame(firmwareOpcode.value, trainId, scaled, codes, VoltDtype(profile.value)));
    }

    /** upload_custom_waveform: the train id must be 0 or 1; one pulse per
        voltage, `width` seconds apart from time 0, sent as a custom train. */
    method UploadCustomWaveform(trainId: int, width: real, volts: seq<real>) returns (r: Result<bool>)
      requires Connected()
      modifies this
      ensures trainId !in CustomPulseTrainOpcodes ==> r == Err(InvalidTrainId) && Wire() == old(Wire())
      ensures trainId in CustomPulseTrainOpcodes ==>
                && (Wire(), r) == Exchange(old(Wire()),
                     CustomTrainFrame(old(firmwareOpcode).value, trainId,
                                      WaveformTimes(|volts|, width, old(hardwareCycleFrequency)),
                                      VoltageCodes(volts, old(profile).value.dacBitMax),
                                      VoltDtype(old(profile).value)))
      ensures params == old(params) && Fixed() == old(Fixed())
    {
      if trainId !in CustomPulseTrainOpcodes {
        return Err(InvalidTrainId);
      }
      var times := SpacePulseTimes(|volts|, width);
      var codes := EncodeVoltages(volts);
      r := Send(CustomTrainFrame(firmwareOpcode.value, trainId, times, codes, VoltDtype(profile.value)));
    }

    /** One section of the config setter: each entry overwrites its cell,
        and the first entry without a cell raises. */
    method OverwriteSection(settings: seq<Setting>) returns (o: Outcome)
      modifies this
      ensures (params, o) == Overwrite(old(params), settings)
      ensures Wire() == old(Wire()) && Fixed() == old(Fixed())
    {
      ghost var target := Overwrite(params, settings);
      assert settings[0..] == settings;
      var i := 0;
      while i < |settings|
        invariant 0 <= i <= |settings|
        invariant Overwrite(params, settings[i..]) == target
        invariant Wire() == old(Wire()) && Fixed() == old(Fixed())
      {
        assert settings[i..][0] == settings[i] && settings[i..][1..] == settings[i + 1..];
        o := UpdateParam(settings[i].channel, settings[i].name, settings[i].value);
        if o.Fail? {
          return;
        }
        i := i + 1;
      }
      o := Pass;
    }

    /** The config setter: top-level entries naming a parameter list
        replace it, then the "channels" and "triggers" sections overwrite
        cells; the config is stored only when nothing raised. The source
        also assigns scalar attributes named at top level; the model leaves
        them unchanged, as the ensures below state. */
    method SetConfig(cfg: Config) returns (o: Outcome)
      modifies this
      ensures (params, o) == ApplyConfig(old(params), cfg)
      ensures config == if o.Pass? then Some(cfg) else old(config)
      ensures Wire() == old(Wire())
      ensures firmwareVersion == old(firmwareVersion) && profile == old(profile)
      ensures hardwareCycleFrequency == old(hardwareCycleFrequency) && firmwareOpcode == old(firmwareOpcode)
      ensures nrOutputChannels == old(nrOutputChannels) && nrTriggerChannels == old(nrTriggerChannels)
    {
      ghost var target := SetAttributes(params, cfg.top);
      assert cfg.top[0..] == cfg.top;
      var i := 0;
      while i < |cfg.top|
        invariant 0 <= i <= |cfg.top|
        invariant SetAttributes(params, cfg.top[i..]) == target
        invariant Wire() == old(Wire()) && Fixed() == old(Fixed())
      {
        assert cfg.top[i..][0] == cfg.top[i] && cfg.top[i..][1..] == cfg.top[i + 1..];
        var (name, list) := cfg.top[i];
        if name in params {
          params := params[name := list];
        }
        i := i + 1;
      }
      o := OverwriteSection(cfg.channels);
      if o.Pass? {
        o := OverwriteSection(cfg.triggers);
      }
      if o.Pass? {
        config := Some(cfg);
      }
    }

    /** Write a frame, then read its confirmation. */
    method Send(frame: seq<byte>) returns (r: Result<bool>)
      modifies this
      ensures (Wire(), r) == Exchange(old(Wire()), frame)
      ensures params == old(params) && Fixed() == old(Fixed())
    {
      WriteFrame(frame);
      r := ReadConfirmation();
    }

    /** set_continuous: the channel goes out as given, not shifted by one. */
    method SetContinuous(channel: int, state: int) returns (r: Result<bool>)
      requires Connected()
      modifies this
      ensures (Wire(), r) == Exchange(old(Wire()), ContinuousFrame(old(firmwareOpcode).value, channel, state))
      ensures params == old(params) && Fixed() == old(Fixed())
    {
      r := Send(ContinuousFrame(firmwareOpcode.value, channel, state));
    }

    /** trigger_selected_channels: one soft-trigger frame with the mask of
        the selected channels. */
    method TriggerSelectedChannels(channel1: bool, channel2: bool, channel3: bool, channel4: bool)
      returns (r: Result<bool>)
      requires Connected()
      modifies this
      ensures (Wire(), r) == Exchange(old(Wire()),
                                      SoftTriggerFrame(old(firmwareOpcode).value, TriggerMask(channel1, channel2, channel3, channel4)))
      ensures params == old(params) && Fixed() == old(Fixed())
    {
      var mask := TriggerMask(channel1, channel2, channel3, channel4);
      r := Send(SoftTriggerFrame(firmwareOpcode.value, mask));
    }

    /** trigger_all_channels: the soft-trigger frame with mask 15. */
    method TriggerAllChannels() returns (r: Result<bool>)
      requires Connected()
      modifies this
      ensures (Wire(), r) == Exchange(old(Wire()), SoftTriggerFrame(old(firmwareOpcode).value, 15))
      ensures params == old(params) && Fixed() == old(Fixed())
    {
      r := TriggerSelectedChannels(true, true, true, true);
    }

    /** stop_all_outputs: the abort frame. */
    method StopAllOutputs() returns (r: Result<bool>)
      requires Connected()
      modifies this
      ensures (Wire(), r) == Exchange(old(Wire()), AbortFrame(old(firmwareOpcode).value))
      ensures params == old(params) && Fixed() == old(Fixed())
    {
      r := Send(AbortFrame(firmwareOpcode.value));
    }

    /** save_settings: the frame with command byte 81 (DISCONNECT). */
    method SaveSettings() returns (r: Result<bool>)
      requires Connected()
      modifies this
      ensures (Wire(), r) == Exchange(old(Wire()), SaveFrame(old(firmwareOpcode).value))
      ensures params == old(params) && Fixed() == old(Fixed())
    {
      r := Send(SaveFrame(firmwareOpcode.value));
    }
  }
}
