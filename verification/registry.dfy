/** The parameter registry of pypulsepal/definitions.py: the code and name
    tables, the per-model wire dtypes, the scaling factors, the defaults, the
    command bytes and the two name/code resolvers. */
module Registry {
  import opened Outcomes
  import opened Codec

  /** PARAM_CODES: parameter code to parameter name. */
  const ParamCodes: map<int, string> := map[
    1 := "isBiphasic",
    2 := "phase1Voltage",
    3 := "phase2Voltage",
    4 := "phase1Duration",
    5 := "interPhaseInterval",
    6 := "phase2Duration",
    7 := "interPulseInterval",
    8 := "burstDuration",
    9 := "interBurstInterval",
    10 := "pulseTrainDuration",
    11 := "pulseTrainDelay",
    12 := "linkTriggerChannel1",
    13 := "linkTriggerChannel2",
    14 := "customTrainID",
    15 := "customTrainTarget",
    16 := "customTrainLoop",
    17 := "restingVoltage",
    128 := "triggerMode"]

  /** PARAM_NAMES: the inverted PARAM_CODES (written out here; the lemmas
      below prove that it is exactly the inverse). */
  const ParamNames: map<string, int> := map[
    "isBiphasic" := 1,
    "phase1Voltage" := 2,
    "phase2Voltage" := 3,
    "phase1Duration" := 4,
    "interPhaseInterval" := 5,
    "phase2Duration" := 6,
    "interPulseInterval" := 7,
    "burstDuration" := 8,
    "interBurstInterval" := 9,
    "pulseTrainDuration" := 10,
    "pulseTrainDelay" := 11,
    "linkTriggerChannel1" := 12,
    "linkTriggerChannel2" := 13,
    "customTrainID" := 14,
    "customTrainTarget" := 15,
    "customTrainLoop" := 16,
    "restingVoltage" := 17,
    "triggerMode" := 128]

  /** CHANNEL_PARAM_DEFAULTS, in its insertion order (the order upload_all
      walks it).  The boolean False of isBiphasic is the number 0. */
  const ChannelParamDefaults: seq<(string, real)> := [
    ("isBiphasic", 0.0),
    ("phase1Voltage", 5.0),
    ("phase2Voltage", -5.0),
    ("phase1Duration", 0.001),
    ("interPhaseInterval", 0.001),
    ("phase2Duration", 0.001),
    ("interPulseInterval", 0.01),
    ("burstDuration", 0.0),
    ("interBurstInterval", 0.0),
    ("pulseTrainDuration", 1.0),
    ("pulseTrainDelay", 0.0),
    ("linkTriggerChannel1", 1.0),
    ("linkTriggerChannel2", 0.0),
    ("customTrainID", 0.0),
    ("customTrainTarget", 0.0),
    ("customTrainLoop", 0.0),
    ("restingVoltage", 0.0)]

  /** TRIGGER_PARAM_DEFAULTS. */
  const TriggerParamDefaults: seq<(string, real)> := [("triggerMode", 0.0)]

  /** TRIGGER_MODE_VALUES and TRIGGER_MODE_NAMES (the resolvers never
      consult them). */
  const TriggerModeValues: map<int, string> := map[0 := "normal", 1 := "toggle", 2 := "gated"]
  const TriggerModeNames: map<string, int> := map["normal" := 0, "toggle" := 1, "gated" := 2]

  /** PARAM_DTYPE_MODEL_1: wire dtypes of hardware model 1. */
  const ParamDtypeModel1: map<string, Dtype> := map[
    "isBiphasic" := UInt8,
    "phase1Voltage" := UInt8,
    "phase2Voltage" := UInt8,
    "phase1Duration" := UInt32,
    "interPhaseInterval" := UInt32,
    "phase2Duration" := UInt32,
    "interPulseInterval" := UInt32,
    "burstDuration" := UInt32,
    "interBurstInterval" := UInt32,
    "pulseTrainDuration" := UInt32,
    "pulseTrainDelay" := UInt32,
    "linkTriggerChannel1" := UInt8,
    "linkTriggerChannel2" := UInt8,
    "customTrainID" := UInt8,
    "customTrainTarget" := UInt8,
    "customTrainLoop" := UInt8,
    "restingVoltage" := UInt8,
    "triggerMode" := UInt8]

  /** PARAM_DTYPE_MODEL_2: wire dtypes of hardware model 2. */
  const ParamDtypeModel2: map<string, Dtype> := map[
    "isBiphasic" := UInt8,
    "phase1Voltage" := UInt16,
    "phase2Voltage" := UInt16,
    "phase1Duration" := UInt32,
    "interPhaseInterval" := UInt32,
    "phase2Duration" := UInt32,
    "interPulseInterval" := UInt32,
    "burstDuration" := UInt32,
    "interBurstInterval" := UInt32,
    "pulseTrainDuration" := UInt32,
    "pulseTrainDelay" := UInt32,
    "linkTriggerChannel1" := UInt8,
    "linkTriggerChannel2" := UInt8,
    "customTrainID" := UInt8,
    "customTrainTarget" := UInt8,
    "customTrainLoop" := UInt8,
    "restingVoltage" := UInt16,
    "triggerMode" := UInt8]

  /** PULSEPAL_CYCLE_FREQUENCY: device ticks per second. */
  const CycleFrequency: int := 20000

  /** PARAM_SCALING: the factor a value is multiplied by before encoding. */
  const ParamScaling: map<string, int> := map[
    "isBiphasic" := 1,
    "phase1Voltage" := 1,
    "phase2Voltage" := 1,
    "phase1Duration" := CycleFrequency,
    "interPhaseInterval" := CycleFrequency,
    "phase2Duration" := CycleFrequency,
    "interPulseInterval" := CycleFrequency,
    "burstDuration" := CycleFrequency,
    "interBurstInterval" := CycleFrequency,
    "pulseTrainDuration" := CycleFrequency,
    "pulseTrainDelay" := CycleFrequency,
    "linkTriggerChannel1" := 1,
    "linkTriggerChannel2" := 1,
    "customTrainID" := 1,
    "customTrainTarget" := 1,
    "customTrainLoop" := 1,
    "restingVoltage" := 1,
    "triggerMode" := 1]

  // SendMessageHeader: command bytes sent after the opcode.
  const Handshake: byte := 72   // the character "H"
  const ProgramAll: byte := 73
  const ProgramOne: byte := 74
  const ProgramCustom1: byte := 75
  const ProgramCustom2: byte := 76
  const SoftTrigger: byte := 77
  const Display: byte := 78
  const ProgramVolt: byte := 79
  const AbortAll: byte := 80
  const Disconnect: byte := 81
  const Continuous: byte := 82
  const LogicSet: byte := 86
  const LogicGet: byte := 87
  const ClientId: byte := 89
  const Settings: byte := 90

  // ReceiveMessageHeader: bytes the device answers with.
  const HandshakeOk: byte := 75   // the character "K"
  const ProgramAllOk: byte := 1
  const ProgramOneOk: byte := 1

  /** CUSTOM_PULSE_TRAIN_OPCODES: both train ids map to PROGRAM_CUSTOM_1. */
  const CustomPulseTrainOpcodes: map<int, byte> := map[0 := ProgramCustom1, 1 := ProgramCustom1]

  /** The three parameters whose values are volts. */
  const VoltageParams: set<string> := {"phase1Voltage", "phase2Voltage", "restingVoltage"}

  // ---------------------------------------------------------------------
  // Table properties

  /** name -> code -> name is the identity. */
  lemma NamesInvertCodes(code: int)
    requires code in ParamCodes
    ensures ParamCodes[code] in ParamNames && ParamNames[ParamCodes[code]] == code
  {
  }

  /** code -> name -> code is the identity. */
  lemma CodesInvertNames(name: string)
    requires name in ParamNames
    ensures ParamNames[name] in ParamCodes && ParamCodes[ParamNames[name]] == name
  {
  }

  /** The dtype and scaling tables are keyed by exactly the registered names. */
  lemma TablesShareKeys(name: string)
    ensures name in ParamDtypeModel1 <==> name in ParamNames
    ensures name in ParamDtypeModel2 <==> name in ParamNames
    ensures name in ParamScaling <==> name in ParamNames
  {
  }

  /** PARAM_SCALING is the cycle frequency exactly for codes 4..11. */
  lemma ScalingByCode(name: string)
    requires name in ParamNames
    ensures name in ParamScaling
    ensures ParamScaling[name] == if 4 <= ParamNames[name] <= 11 then 20000 else 1
  {
  }

  /** The two dtype tables differ exactly on the three voltage parameters,
      which are uint8 on model 1 and uint16 on model 2. */
  lemma DtypeTablesDifferOnVoltages(name: string)
    requires name in ParamNames
    ensures name in ParamDtypeModel1 && name in ParamDtypeModel2
    ensures name in VoltageParams ==>
              ParamDtypeModel1[name] == UInt8 && ParamDtypeModel2[name] == UInt16
    ensures name !in VoltageParams ==> ParamDtypeModel1[name] == ParamDtypeModel2[name]
  {
  }

  /** Durations (codes 4..11) are uint32; isBiphasic, codes 12..16 and
      triggerMode are uint8; on both models. */
  lemma DtypeByCode(name: string)
    requires name in ParamNames
    ensures name in ParamDtypeModel1 && name in ParamDtypeModel2
    ensures 4 <= ParamNames[name] <= 11 ==>
              ParamDtypeModel1[name] == UInt32 && ParamDtypeModel2[name] == UInt32
    ensures (ParamNames[name] == 1 || 12 <= ParamNames[name] <= 16 || ParamNames[name] == 128) ==>
              ParamDtypeModel1[name] == UInt8 && ParamDtypeModel2[name] == UInt8
  {
  }

  /** The names of CHANNEL_PARAM_DEFAULTS, in order. */
  function DefaultNames(defaults: seq<(string, real)>): (names: seq<string>)
    ensures |names| == |defaults|
    ensures forall i :: 0 <= i < |defaults| ==> names[i] == defaults[i].0
  {
    seq(|defaults|, i requires 0 <= i < |defaults| => defaults[i].0)
  }

  /** CHANNEL_PARAM_DEFAULTS lists the names of codes 1..17 in code order. */
  lemma DefaultsFollowCodes(i: int)
    requires 0 <= i < 17
    ensures |ChannelParamDefaults| == 17 && i + 1 in ParamCodes
    ensures ChannelParamDefaults[i].0 == ParamCodes[i + 1]
  {
  }

  /** triggerMode is no channel parameter; TRIGGER_PARAM_DEFAULTS holds only
      triggerMode. */
  lemma TriggerModeSeparate()
    ensures "triggerMode" !in DefaultNames(ChannelParamDefaults)
    ensures DefaultNames(TriggerParamDefaults) == ["triggerMode"]
  {
    var names := DefaultNames(ChannelParamDefaults);
    forall i | 0 <= i < 17 ensures names[i] != "triggerMode" {
      DefaultsFollowCodes(i);
    }
  }

  /** Every parameter code is one of the channel codes 1..17 or 128. */
  lemma CodeRange(code: int)
    requires code in ParamCodes
    ensures 1 <= code <= 17 || (code == 128 && ParamCodes[code] == "triggerMode")
  {
  }

  /** The registered names are the channel parameters and triggerMode. */
  lemma RegisteredNames(name: string)
    ensures name in ParamNames <==> name in DefaultNames(ChannelParamDefaults) || name == "triggerMode"
  {
    var names := DefaultNames(ChannelParamDefaults);
    if name in names {
      var i :| 0 <= i < |names| && names[i] == name;
      DefaultsFollowCodes(i);
      NamesInvertCodes(i + 1);
    }
    if name in ParamNames && name != "triggerMode" {
      CodesInvertNames(name);
      CodeRange(ParamNames[name]);
      DefaultsFollowCodes(ParamNames[name] - 1);
      assert names[ParamNames[name] - 1] == name;
    }
  }

  /** The channel parameter names are pairwise distinct. */
  lemma DefaultNamesDistinct(i: int, j: int)
    requires 0 <= i < j < |ChannelParamDefaults|
    ensures ChannelParamDefaults[i].0 != ChannelParamDefaults[j].0
  {
    DefaultsFollowCodes(i);
    DefaultsFollowCodes(j);
    CodesNameDistinct(i + 1, j + 1);
  }

  /** Different codes have different names. */
  lemma CodesNameDistinct(a: int, b: int)
    requires a in ParamCodes && b in ParamCodes && a != b
    ensures ParamCodes[a] != ParamCodes[b]
  {
    NamesInvertCodes(a);
    NamesInvertCodes(b);
  }

  // ---------------------------------------------------------------------
  // Resolvers

  /** The argument of a resolver: a str, an int, or anything else. */
  datatype Identifier = Name(name: string) | Code(code: int) | Other

  /** resolve_param_name_code_pair: the (name, code) pair of a parameter
      given by name or by code. */
  function ResolveParamNameCodePair(id: Identifier): (r: Result<(string, int)>)
    ensures r.Ok? ==> r.value.0 in ParamNames && ParamNames[r.value.0] == r.value.1
    ensures id.Name? ==> (r.Ok? <==> id.name in ParamNames) && (r.Ok? ==> r.value.0 == id.name)
    ensures id.Code? ==> (r.Ok? <==> id.code in ParamCodes) && (r.Ok? ==> r.value.1 == id.code)
    ensures r.Err? ==> r.error == if id.Other? then NotNameOrCode else UnknownParameter
  {
    match id
    case Name(n) => if n in ParamNames then Ok((n, ParamNames[n])) else Err(UnknownParameter)
    case Code(c) =>
      if c in ParamCodes then NamesInvertCodes(c); Ok((ParamCodes[c], c)) else Err(UnknownParameter)
    case Other => Err(NotNameOrCode)
  }

  /** A known parameter resolves to the same pair by name and by code. */
  lemma ResolveByNameOrCode(code: int)
    requires code in ParamCodes
    ensures ResolveParamNameCodePair(Code(code)) == ResolveParamNameCodePair(Name(ParamCodes[code]))
    ensures ResolveParamNameCodePair(Code(code)) == Ok((ParamCodes[code], code))
  {
    NamesInvertCodes(code);
  }

  /** resolve_trigger_name_code_pair: looks the mode up in the parameter
      tables, not in the trigger-mode tables; an int comes back unchanged
      as the code when it is a parameter code. */
  function ResolveTriggerNameCodePair(id: Identifier): (r: Result<(string, int)>)
    ensures r == ResolveParamNameCodePair(id)
    ensures id.Code? ==> (r.Ok? <==> id.code in ParamCodes) && (r.Ok? ==> r == Ok((ParamCodes[id.code], id.code)))
    ensures id.Name? ==> (r.Ok? <==> id.name in ParamNames) && (r.Ok? ==> r == Ok((id.name, ParamNames[id.name])))
    ensures r.Err? ==> r.error == if id.Other? then NotNameOrCode else UnknownParameter
  {
    match id
    case Name(n) => if n in ParamNames then Ok((n, ParamNames[n])) else Err(UnknownParameter)
    case Code(c) => if c in ParamCodes then Ok((ParamCodes[c], c)) else Err(UnknownParameter)
    case Other => Err(NotNameOrCode)
  }

  /** Trigger modes are resolved as parameters: mode 0 ("normal") is no
      parameter code and is refused, modes 1 and 2 pass only because they
      are the codes of isBiphasic and phase1Voltage, and no mode name is a
      parameter name. */
  lemma TriggerModesAsParameters()
    ensures ResolveTriggerNameCodePair(Code(0)) == Err(UnknownParameter)
    ensures ResolveTriggerNameCodePair(Code(1)) == Ok(("isBiphasic", 1))
    ensures ResolveTriggerNameCodePair(Code(2)) == Ok(("phase1Voltage", 2))
    ensures forall m :: m in TriggerModeNames ==> ResolveTriggerNameCodePair(Name(m)).Err?
  {
  }
}
