/** What the commands of class PulsePal (pypulsepal/pulsepal.py) do, as
    functions on values: the serial link, the mirror of confirmed parameter
    values, one program_one_param call, the upload_all run and the cell
    overwrites of the config setter. The class in module Session is proved
    against these definitions. */
module Protocol {
  import opened Outcomes
  import opened Codec
  import opened Registry
  import opened Frames

  // ---------------------------------------------------------------------
  // State

  /** The per-parameter lists of a PulsePal object: one list per parameter
      name, one cell per channel. */
  type Mirror = map<string, seq<real>>

  /** The serial link as the host sees it: every frame written so far, and
      the bytes the device has yet to deliver, in order. */
  datatype Link = Link(sent: seq<seq<byte>>, replies: seq<byte>)

  /** The profile's dtype table has an entry for every registered
      parameter, as both tables the handshake can install do. */
  predicate Wired(p: Profile)
  {
    ParamNames.Keys <= p.dtypes.Keys
  }

  lemma HandshakeProfilesWired(firmwareVersion: int)
    ensures Wired(ProfileFor(firmwareVersion))
  {
    forall name | name in ParamNames ensures name in ProfileFor(firmwareVersion).dtypes {
      TablesShareKeys(name);
    }
  }

  /** The dtype of the voltage codes of a custom train: the profile's
      dtype for phase1Voltage. */
  function VoltDtype(p: Profile): Dtype
    requires Wired(p)
  {
    assert "phase1Voltage" in ParamNames;
    p.dtypes["phase1Voltage"]
  }

  /** Same parameter names, and every list keeps its length. */
  predicate SameShape(m: Mirror, m': Mirror)
  {
    m.Keys == m'.Keys && forall n :: n in m ==> |m'[n]| == |m[n]|
  }

  /** Python's list indexing: `i` is valid when -len <= i < len, and a
      negative index counts from the end. */
  function PyIndex(i: int, len: nat): (r: Option<nat>)
    ensures r.Some? <==> -(len as int) <= i < len
    ensures r.Some? ==> r.value < len && r.value == i % len
  {
    if 0 <= i < len then Some(i)
    else if -(len as int) <= i < 0 then Some(i + len)
    else None
  }

  /** `getattr(self, name)[channel] = value`: the attribute must exist
      and the index must be valid; exactly one cell changes. */
  function SetCell(m: Mirror, name: string, channel: int, value: real): (r: Result<Mirror>)
    ensures r.Ok? <==> name in m && PyIndex(channel, |m[name]|).Some?
    ensures r.Err? ==> r.error == if name in m then IndexOutOfRange else NoSuchParameter
    ensures r.Ok? ==> SameShape(m, r.value)
    ensures r.Ok? ==> r.value[name][PyIndex(channel, |m[name]|).value] == value
    ensures r.Ok? ==> forall n, j :: n in m && 0 <= j < |m[n]| && (n != name || j != PyIndex(channel, |m[name]|).value)
                       ==> r.value[n][j] == m[n][j]
  {
    if name !in m then Err(NoSuchParameter)
    else match PyIndex(channel, |m[name]|)
      case None => Err(IndexOutOfRange)
      case Some(i) => Ok(m[name := m[name][i := value]])
  }

  // ---------------------------------------------------------------------
  // Commands with a confirmation byte

  /** _read_confirmation: the next reply byte, compared with 1. An empty
      queue is a read that times out. */
  function Confirm(link: Link): (Link, Result<bool>)
  {
    if link.replies == [] then (link, Err(NoReply))
    else (Link(link.sent, link.replies[1..]), Ok(link.replies[0] == ProgramOneOk))
  }

  /** Write one frame, then read its confirmation. */
  function Exchange(link: Link, frame: seq<byte>): (r: (Link, Result<bool>))
    ensures r.0.sent == link.sent + [frame]
    ensures r.1.Err? <==> link.replies == []
    ensures r.1.Ok? ==> r.0.replies == link.replies[1..] && (r.1.value <==> link.replies[0] == 1)
    ensures r.1.Err? ==> r.0.replies == [] && r.1.error == NoReply
  {
    Confirm(Link(link.sent + [frame], link.replies))
  }

  // ---------------------------------------------------------------------
  // program_one_param

  /** The mirror, link and return value after one program_one_param call. */
  datatype Step = Step(mirror: Mirror, link: Link, result: Result<bool>)

  /** program_one_param: resolve the parameter, transform the value, send
      the frame, read the confirmation, and on a confirmation store the
      transformed value in the cell. */
  function ProgramOneStep(m: Mirror, link: Link, opcode: int, p: Profile,
                          channel: int, id: Identifier, value: real): (s: Step)
    requires Wired(p)
    ensures link.sent <= s.link.sent && |s.link.sent| <= |link.sent| + 1
    ensures SameShape(m, s.mirror)
    ensures s.mirror != m ==> s.result == Ok(true) && link.replies != [] && link.replies[0] == ProgramOneOk
    ensures s.result == Ok(true) ==>
              && link.replies != [] && link.replies[0] == ProgramOneOk
              && |s.link.sent| == |link.sent| + 1 && s.link.replies == link.replies[1..]
  {
    match ResolveParamNameCodePair(id)
    case Err(e) => Step(m, link, Err(e))
    case Ok(pair) =>
      var name := pair.0;
      TablesShareKeys(name);
      var v := WireValue(name, value, p.dacBitMax);
      var ex := Exchange(link, ProgramOneFrame(opcode, pair.1, channel, v, p.dtypes[name]));
      if ex.1 == Ok(true) then
        match SetCell(m, name, channel, v)
        case Ok(m') => Step(m', ex.0, Ok(true))
        case Err(e) => Step(m, ex.0, Err(e))
      else Step(m, ex.0, ex.1)
  }

  /** A call that names an unknown parameter, or is neither a name nor a
      code, writes nothing, reads nothing and changes nothing. */
  lemma ProgramOneRejectsBeforeSending(m: Mirror, link: Link, opcode: int, p: Profile,
                                       channel: int, id: Identifier, value: real)
    requires Wired(p) && ResolveParamNameCodePair(id).Err?
    ensures var s := ProgramOneStep(m, link, opcode, p, channel, id, value);
      s == Step(m, link, Err(if id.Other? then NotNameOrCode else UnknownParameter))
  {
  }

  /** With a known parameter, exactly one frame is written: the program-one
      frame of the parameter's code carrying the transformed value at the
      parameter's width; then exactly one reply byte is consumed when there
      is one. Only a reply of 1 touches the mirror, and then only the cell
      of that parameter and channel, which receives the transformed value. */
  lemma ProgramOneEffect(m: Mirror, link: Link, opcode: int, p: Profile,
                         channel: int, id: Identifier, value: real)
    requires Wired(p) && ResolveParamNameCodePair(id).Ok?
    ensures var (name, code) := ResolveParamNameCodePair(id).value;
      && name in p.dtypes && name in ParamScaling
      && var v := WireValue(name, value, p.dacBitMax);
      && var s := ProgramOneStep(m, link, opcode, p, channel, id, value);
      && s.link.sent == link.sent + [ProgramOneFrame(opcode, code, channel, v, p.dtypes[name])]
      && (link.replies == [] ==> s == Step(m, Link(s.link.sent, []), Err(NoReply)))
      && (link.replies != [] && link.replies[0] != ProgramOneOk ==>
            s == Step(m, Link(s.link.sent, link.replies[1..]), Ok(false)))
      && (link.replies != [] && link.replies[0] == ProgramOneOk ==>
            s.link.replies == link.replies[1..]
            && s.result == (if SetCell(m, name, channel, v).Ok? then Ok(true) else Err(SetCell(m, name, channel, v).error))
            && s.mirror == (if SetCell(m, name, channel, v).Ok? then SetCell(m, name, channel, v).value else m))
  {
    var (name, code) := ResolveParamNameCodePair(id).value;
    TablesShareKeys(name);
  }

  /** program_trigger_channel: the trigger mode is resolved against the
      parameter tables and its code is programmed as the channel's
      triggerMode; a failed resolution sends nothing. */
  function ProgramTriggerStep(m: Mirror, link: Link, opcode: int, p: Profile,
                              triggerChannel: int, mode: Identifier): (s: Step)
    requires Wired(p)
    ensures ResolveTriggerNameCodePair(mode).Err? ==> s == Step(m, link, Err(ResolveTriggerNameCodePair(mode).error))
    ensures ResolveTriggerNameCodePair(mode).Ok? ==>
              s == ProgramOneStep(m, link, opcode, p, triggerChannel, Name("triggerMode"),
                                  ResolveTriggerNameCodePair(mode).value.1 as real)
  {
    match ResolveTriggerNameCodePair(mode)
    case Err(e) => Step(m, link, Err(e))
    case Ok(pair) => ProgramOneStep(m, link, opcode, p, triggerChannel, Name("triggerMode"), pair.1 as real)
  }

  /** A trigger mode given as an int goes on the wire as that int, and the
      mirror stores it unchanged: triggerMode has scaling 1 and is no
      voltage. */
  lemma TriggerModeGoesOutUnchanged(m: Mirror, link: Link, opcode: int, p: Profile,
                                    triggerChannel: int, code: int)
    requires Wired(p) && code in ParamCodes
    ensures "triggerMode" in p.dtypes
    ensures var s := ProgramTriggerStep(m, link, opcode, p, triggerChannel, Code(code));
      s.link.sent == link.sent + [ProgramOneFrame(opcode, 128, triggerChannel, code as real, p.dtypes["triggerMode"])]
  {
    TablesShareKeys("triggerMode");
    WireValueByClass("triggerMode", code as real, p.dacBitMax);
    ProgramOneEffect(m, link, opcode, p, triggerChannel, Name("triggerMode"), code as real);
  }

  /** Trigger mode 0 ("normal") has no parameter code, so the int form
      of it is refused before anything is sent. */
  lemma TriggerNormalRefused(m: Mirror, link: Link, opcode: int, p: Profile, triggerChannel: int)
    requires Wired(p)
    ensures ProgramTriggerStep(m, link, opcode, p, triggerChannel, Code(0)) == Step(m, link, Err(UnknownParameter))
  {
    TriggerModesAsParameters();
  }

  // ---------------------------------------------------------------------
  // upload_all

  /** One program_one_param call of upload_all: a parameter name and a
      channel index. */
  datatype Write = Write(name: string, channel: nat)

  /** Channels 0 .. n-1 of one parameter, in order (`range(n)`). */
  function Row(name: string, n: int): (ws: seq<Write>)
    ensures |ws| == if n < 0 then 0 else n
    ensures forall c :: 0 <= c < |ws| ==> ws[c] == Write(name, c)
  {
    if n <= 0 then [] else Row(name, n - 1) + [Write(name, n - 1)]
  }

  /** The rows of several parameters, one after the other. */
  function Rows(names: seq<string>, n: int): seq<Write>
  {
    if names == [] then [] else Row(names[0], n) + Rows(names[1..], n)
  }

  /** The rows from the i-th name on: that name's row first. */
  lemma RowsFrom(names: seq<string>, i: nat, n: int, rest: seq<Write>)
    requires i < |names|
    ensures Rows(names[i..], n) + rest == Row(names[i], n) + (Rows(names[i + 1..], n) + rest)
  {
    assert names[i..][1..] == names[i + 1..];
  }

  lemma TakeDrop<T>(s: seq<T>, k: nat)
    requires k <= |s|
    ensures s[..k] + s[k..] == s
  {
  }

  /** A suffix of a sequence, followed by more: its first element, then the rest. */
  lemma SuffixCons<T>(s: seq<T>, c: nat, rest: seq<T>)
    requires c < |s|
    ensures s[c..] + rest == [s[c]] + (s[c + 1..] + rest)
  {
  }

  /** The calls upload_all makes, in order: every channel parameter of
      CHANNEL_PARAM_DEFAULTS on channels 0 .. nrOutputChannels-1, then
      triggerMode on trigger channels 0 .. nrTriggerChannels-1. */
  function UploadSchedule(nrOutputChannels: int, nrTriggerChannels: int): seq<Write>
  {
    Rows(DefaultNames(ChannelParamDefaults), nrOutputChannels) + Row("triggerMode", nrTriggerChannels)
  }

  /** The mirror, link and outcome after a run of calls. */
  datatype Run = Run(mirror: Mirror, link: Link, outcome: Outcome)

  /** upload_all from a given write on: each cell is read from the mirror
      (an IndexError when the list is too short), programmed, and the run
      stops at the first call that fails or is not confirmed. */
  function RunWrites(m: Mirror, link: Link, opcode: int, p: Profile, ws: seq<Write>): (r: Run)
    requires Wired(p)
    ensures SameShape(m, r.mirror)
    ensures link.sent <= r.link.sent && |r.link.sent| <= |link.sent| + |ws|
    decreases |ws|
  {
    if ws == [] then Run(m, link, Pass)
    else
      var w := ws[0];
      if w.name !in m then Run(m, link, Fail(NoSuchParameter))
      else if w.channel >= |m[w.name]| then Run(m, link, Fail(IndexOutOfRange))
      else
        var s := ProgramOneStep(m, link, opcode, p, w.channel, Name(w.name), m[w.name][w.channel]);
        match s.result
        case Err(e) => Run(s.mirror, s.link, Fail(e))
        case Ok(ok) =>
          if ok then
            var r := RunWrites(s.mirror, s.link, opcode, p, ws[1..]);
            Run(r.mirror, r.link, r.outcome)
          else Run(s.mirror, s.link, Fail(UploadRejected))
  }

  /** The number of leading confirmations (bytes equal to 1) in a reply queue. */
  function Confirmed(replies: seq<byte>): (k: nat)
    ensures k <= |replies|
    ensures forall j :: 0 <= j < k ==> replies[j] == ProgramOneOk
    ensures k < |replies| ==> replies[k] != ProgramOneOk
  {
    if replies == [] || replies[0] != ProgramOneOk then 0 else 1 + Confirmed(replies[1..])
  }

  /** The call names a registered parameter whose list has the channel. */
  predicate Fits1(m: Mirror, w: Write)
  {
    w.name in ParamNames && w.name in m && w.channel < |m[w.name]|
  }

  /** Every call fits. */
  predicate Fits(m: Mirror, ws: seq<Write>)
    decreases |ws|
  {
    ws == [] || (Fits1(m, ws[0]) && Fits(m, ws[1..]))
  }

  lemma {:induction false} FitsShape(m: Mirror, m': Mirror, ws: seq<Write>)
    requires Fits(m, ws) && SameShape(m, m')
    decreases |ws|
    ensures Fits(m', ws)
  {
    if ws != [] {
      FitsShape(m, m', ws[1..]);
    }
  }

  lemma {:induction false} FitsPrefix(m: Mirror, ws: seq<Write>, k: nat)
    requires Fits(m, ws) && k <= |ws|
    decreases |ws|
    ensures Fits(m, ws[..k])
  {
    if k > 0 {
      assert ws[..k][0] == ws[0] && ws[..k][1..] == ws[1..][..k - 1];
      FitsPrefix(m, ws[1..], k - 1);
    }
  }

  /** The transformed value a confirmed write stores. */
  function Transformed(m: Mirror, p: Profile, w: Write): real
    requires Fits1(m, w)
  {
    TablesShareKeys(w.name);
    WireValue(w.name, m[w.name][w.channel], p.dacBitMax)
  }

  /** The mirror after a confirmed write: the write's cell holds the
      transformed value. A write that does not fit stores nothing. */
  function Store(p: Profile, m: Mirror, w: Write): (m': Mirror)
    ensures SameShape(m, m')
  {
    if Fits1(m, w) then m[w.name := m[w.name][w.channel := Transformed(m, p, w)]] else m
  }

  /** The frame a write sends: the program-one frame of the parameter's
      code, channel and transformed value. A write that does not fit sends
      none, which the empty frame stands for. */
  function FrameOf(opcode: int, p: Profile, m: Mirror, w: Write): seq<byte>
  {
    if Wired(p) && Fits1(m, w) then
      TablesShareKeys(w.name);
      ProgramOneFrame(opcode, ParamNames[w.name], w.channel, Transformed(m, p, w), p.dtypes[w.name])
    else []
  }

  /** Store, for a profile, as a function value. */
  function Storer(p: Profile): (Mirror, Write) -> Mirror
  {
    (m, w) => Store(p, m, w)
  }

  /** FrameOf, for an opcode and a profile, as a function value. */
  function Framer(opcode: int, p: Profile): (Mirror, Write) -> seq<byte>
  {
    (m, w) => FrameOf(opcode, p, m, w)
  }

  /** A run of writes, step by step, for any frame and store functions:
      each write sends its frame; no reply ends the run with NoReply, a
      reply other than 1 with UploadRejected, and a 1 stores the write and
      goes on. */
  function RunSteps(m: Mirror, link: Link, ws: seq<Write>,
                    frame: (Mirror, Write) -> seq<byte>, store: (Mirror, Write) -> Mirror): Run
    decreases |ws|
  {
    if ws == [] then Run(m, link, Pass)
    else
      var l := link.sent + [frame(m, ws[0])];
      if link.replies == [] then Run(m, Link(l, []), Fail(NoReply))
      else if link.replies[0] != ProgramOneOk then Run(m, Link(l, link.replies[1..]), Fail(UploadRejected))
      else RunSteps(store(m, ws[0]), Link(l, link.replies[1..]), ws[1..], frame, store)
  }

  /** The mirror after every write of `ws` was stored, one after the other. */
  function StoreAll(m: Mirror, ws: seq<Write>, store: (Mirror, Write) -> Mirror): Mirror
    decreases |ws|
  {
    if ws == [] then m else StoreAll(store(m, ws[0]), ws[1..], store)
  }

  /** The frames of the writes of `ws`, each built on the mirror the writes
      before it left. */
  function FramesAll(m: Mirror, ws: seq<Write>, frame: (Mirror, Write) -> seq<byte>,
                     store: (Mirror, Write) -> Mirror): (fs: seq<seq<byte>>)
    ensures |fs| == |ws|
    decreases |ws|
  {
    if ws == [] then [] else [frame(m, ws[0])] + FramesAll(store(m, ws[0]), ws[1..], frame, store)
  }

  /** The mirror after every write of `ws` was confirmed. */
  function ApplyWrites(m: Mirror, p: Profile, ws: seq<Write>): Mirror
  {
    StoreAll(m, ws, Storer(p))
  }

  /** The frames the writes of `ws` send when each one is confirmed. */
  function WriteFrames(m: Mirror, opcode: int, p: Profile, ws: seq<Write>): seq<seq<byte>>
  {
    FramesAll(m, ws, Framer(opcode, p), Storer(p))
  }

  lemma StepsPrefixCons(m: Mirror, ws: seq<Write>, k: nat, frame: (Mirror, Write) -> seq<byte>,
                        store: (Mirror, Write) -> Mirror)
    requires 1 <= k <= |ws|
    ensures StoreAll(m, ws[..k], store) == StoreAll(store(m, ws[0]), ws[1..][..k - 1], store)
    ensures FramesAll(m, ws[..k], frame, store)
            == [frame(m, ws[0])] + FramesAll(store(m, ws[0]), ws[1..][..k - 1], frame, store)
  {
    assert ws[..k][0] == ws[0] && ws[..k][1..] == ws[1..][..k - 1];
  }

  /** When the device confirms every write, the run passes, stores every
      write, sends one frame per write and consumes one reply per write. */
  lemma {:induction false} StepsPass(m: Mirror, link: Link, ws: seq<Write>,
                                     frame: (Mirror, Write) -> seq<byte>, store: (Mirror, Write) -> Mirror)
    requires Confirmed(link.replies) >= |ws|
    decreases |ws|
    ensures RunSteps(m, link, ws, frame, store)
            == Run(StoreAll(m, ws, store), Link(link.sent + FramesAll(m, ws, frame, store), link.replies[|ws|..]), Pass)
  {
    if ws != [] {
      var link1 := Link(link.sent + [frame(m, ws[0])], link.replies[1..]);
      StepsPass(store(m, ws[0]), link1, ws[1..], frame, store);
      assert link.sent + FramesAll(m, ws, frame, store)
             == link1.sent + FramesAll(store(m, ws[0]), ws[1..], frame, store);
      assert link1.replies[|ws| - 1..] == link.replies[|ws|..];
    }
  }

  /** When the device confirms only the first k < |ws| writes, the run
      fails at write k+1, having stored k writes and sent k+1 frames. */
  lemma {:induction false} StepsStop(m: Mirror, link: Link, ws: seq<Write>,
                                     frame: (Mirror, Write) -> seq<byte>, store: (Mirror, Write) -> Mirror)
    requires Confirmed(link.replies) < |ws|
    decreases |ws|
    ensures var r := RunSteps(m, link, ws, frame, store);
      var k := Confirmed(link.replies);
      && r.outcome == (if k < |link.replies| then Fail(UploadRejected) else Fail(NoReply))
      && r.mirror == StoreAll(m, ws[..k], store)
      && r.link.sent == link.sent + FramesAll(m, ws[..k + 1], frame, store)
      && r.link.replies == (if k < |link.replies| then link.replies[k + 1..] else [])
  {
    var k := Confirmed(link.replies);
    StepsPrefixCons(m, ws, k + 1, frame, store);
    if link.replies == [] || link.replies[0] != ProgramOneOk {
      assert ws[1..][..0] == [] && ws[..0] == [];
    } else {
      var link1 := Link(link.sent + [frame(m, ws[0])], link.replies[1..]);
      assert Confirmed(link1.replies) == k - 1;
      StepsStop(store(m, ws[0]), link1, ws[1..], frame, store);
      StepsPrefixCons(m, ws, k, frame, store);
      if k < |link.replies| {
        assert link.replies[k + 1..] == link1.replies[k..];
      }
    }
  }

  /** The first write of upload_all, when it fits: its frame goes out; no
      reply ends the run with NoReply, a reply other than 1 with
      UploadRejected, and a 1 stores the transformed value and continues
      with the rest. */
  lemma RunFirstWrite(m: Mirror, link: Link, opcode: int, p: Profile, ws: seq<Write>)
    requires Wired(p) && Fits(m, ws) && ws != []
    ensures Fits(Store(p, m, ws[0]), ws[1..])
    ensures var l := link.sent + [FrameOf(opcode, p, m, ws[0])];
      RunWrites(m, link, opcode, p, ws)
      == if link.replies == [] then Run(m, Link(l, []), Fail(NoReply))
         else if link.replies[0] != ProgramOneOk then Run(m, Link(l, link.replies[1..]), Fail(UploadRejected))
         else RunWrites(Store(p, m, ws[0]), Link(l, link.replies[1..]), opcode, p, ws[1..])
  {
    var w := ws[0];
    ProgramOneEffect(m, link, opcode, p, w.channel, Name(w.name), m[w.name][w.channel]);
    FitsShape(m, Store(p, m, w), ws[1..]);
  }

  /** When every call fits, upload_all is the step-by-step run of the
      program-one frames and the confirmed stores. */
  lemma {:induction false} RunWritesFitting(m: Mirror, link: Link, opcode: int, p: Profile, ws: seq<Write>)
    requires Wired(p) && Fits(m, ws)
    decreases |ws|
    ensures RunWrites(m, link, opcode, p, ws) == RunSteps(m, link, ws, Framer(opcode, p), Storer(p))
  {
    if ws != [] {
      RunFirstWrite(m, link, opcode, p, ws);
      if link.replies != [] && link.replies[0] == ProgramOneOk {
        var l := link.sent + [FrameOf(opcode, p, m, ws[0])];
        RunWritesFitting(Store(p, m, ws[0]), Link(l, link.replies[1..]), opcode, p, ws[1..]);
      }
    }
  }

  /** upload_all when the device confirms every write: the run passes,
      every write is stored, one frame per write is sent in order, and one
      reply byte per write is consumed. */
  lemma UploadRunPasses(m: Mirror, link: Link, opcode: int, p: Profile, ws: seq<Write>)
    requires Wired(p) && Fits(m, ws) && Confirmed(link.replies) >= |ws|
    ensures RunWrites(m, link, opcode, p, ws)
            == Run(ApplyWrites(m, p, ws), Link(link.sent + WriteFrames(m, opcode, p, ws), link.replies[|ws|..]), Pass)
  {
    RunWritesFitting(m, link, opcode, p, ws);
    StepsPass(m, link, ws, Framer(opcode, p), Storer(p));
  }

  /** upload_all when the device confirms only the first k < |ws| writes:
      the run fails at write k+1 (UploadRejected when a reply other than 1
      arrived, NoReply when none did); the first k writes are stored, the
      first k+1 frames are sent and nothing after them. */
  lemma UploadRunStops(m: Mirror, link: Link, opcode: int, p: Profile, ws: seq<Write>)
    requires Wired(p) && Fits(m, ws) && Confirmed(link.replies) < |ws|
    ensures var r := RunWrites(m, link, opcode, p, ws);
      var k := Confirmed(link.replies);
      && r.outcome == (if k < |link.replies| then Fail(UploadRejected) else Fail(NoReply))
      && r.mirror == ApplyWrites(m, p, ws[..k])
      && r.link.sent == link.sent + WriteFrames(m, opcode, p, ws[..k + 1])
      && r.link.replies == (if k < |link.replies| then link.replies[k + 1..] else [])
  {
    RunWritesFitting(m, link, opcode, p, ws);
    StepsStop(m, link, ws, Framer(opcode, p), Storer(p));
  }

  // ---------------------------------------------------------------------
  // What upload_all stores

  /** After a run of confirmed writes that all fit and never repeat a
      cell, each written cell holds the transformation of its original
      value and every other cell is unchanged. */
  lemma {:induction false} ApplyWritesCells(m: Mirror, p: Profile, ws: seq<Write>, name: string, c: nat)
    requires Fits(m, ws) && Distinct(ws) && Fits1(m, Write(name, c))
    decreases |ws|
    ensures Fits1(ApplyWrites(m, p, ws), Write(name, c))
    ensures ApplyWrites(m, p, ws)[name][c]
            == if Write(name, c) in ws then Transformed(m, p, Write(name, c)) else m[name][c]
  {
    if ws != [] {
      var m1 := Store(p, m, ws[0]);
      assert ApplyWrites(m, p, ws) == ApplyWrites(m1, p, ws[1..]);
      FitsShape(m, m1, ws[1..]);
      assert Distinct(ws[1..]) by {
        forall i, j | 0 <= i < j < |ws[1..]| ensures ws[1..][i] != ws[1..][j] {
          assert ws[1..][i] == ws[i + 1] && ws[1..][j] == ws[j + 1];
        }
      }
      ApplyWritesCells(m1, p, ws[1..], name, c);
      if Write(name, c) == ws[0] {
        assert Write(name, c) !in ws[1..] by {
          forall j | 0 <= j < |ws[1..]| ensures ws[1..][j] != ws[0] {
            assert ws[1..][j] == ws[j + 1];
          }
        }
      } else {
        assert m1[name][c] == m[name][c];
        assert Write(name, c) in ws <==> Write(name, c) in ws[1..] by {
          assert ws == [ws[0]] + ws[1..];
        }
      }
    }
  }

  /** No element occurs twice. */
  predicate Distinct<T(==)>(s: seq<T>)
  {
    forall i, j :: 0 <= i < j < |s| ==> s[i] != s[j]
  }

  /** The mirror keeps the transformed value, so a cell confirmed once and
      programmed again from the mirror is transformed a second time. */
  lemma MirrorHoldsWireValue(m: Mirror, p: Profile, w: Write)
    requires Fits1(m, w)
    ensures Fits1(Store(p, m, w), w)
    ensures Store(p, m, w)[w.name][w.channel] == Transformed(m, p, w)
    ensures Transformed(Store(p, m, w), p, w) == WireValue(w.name, Transformed(m, p, w), p.dacBitMax)
  {
  }

  /** A phase duration of 1 ms is stored as 20 ticks after its first
      upload and goes out as 400000 ticks (20 s) on the next one. */
  lemma DurationScaledTwice(p: Profile)
    ensures var m: Mirror := map["phase1Duration" := [0.001]];
      var w := Write("phase1Duration", 0);
      && Fits1(m, w) && Transformed(m, p, w) == 20.0
      && Transformed(Store(p, m, w), p, w) == 400000.0
  {
    var m: Mirror := map["phase1Duration" := [0.001]];
    var w := Write("phase1Duration", 0);
    WireValueByClass("phase1Duration", 0.001, p.dacBitMax);
    WireValueByClass("phase1Duration", 20.0, p.dacBitMax);
    MirrorHoldsWireValue(m, p, w);
  }

  // ---------------------------------------------------------------------
  // The order of upload_all

  lemma {:induction false} RowsLength(names: seq<string>, n: nat)
    ensures |Rows(names, n)| == |names| * n
  {
    if names != [] {
      RowsLength(names[1..], n);
      MulSucc(|names| - 1, n);
    }
  }

  /** Call i*n + c of the rows is channel c of the i-th name. */
  lemma {:induction false} RowsAt(names: seq<string>, n: nat, i: nat, c: nat)
    requires i < |names| && c < n
    ensures i * n + c < |Rows(names, n)| && Rows(names, n)[i * n + c] == Write(names[i], c)
  {
    var head, tail := Row(names[0], n), Rows(names[1..], n);
    assert Rows(names, n) == head + tail;
    if i > 0 {
      RowsAt(names[1..], n, i - 1, c);
      MulSucc(i - 1, n);
      assert i * n + c == |head| + ((i - 1) * n + c);
      assert names[1..][i - 1] == names[i];
    }
  }

  /** Every call of the rows names one of the names and a channel below n. */
  lemma {:induction false} RowsMembers(names: seq<string>, n: int, w: Write)
    requires w in Rows(names, n)
    ensures w.name in names && w.channel < n
  {
    if names != [] {
      assert Rows(names, n) == Row(names[0], n) + Rows(names[1..], n);
      if w !in Row(names[0], n) {
        RowsMembers(names[1..], n, w);
      }
    }
  }

  lemma {:induction false} RowsDistinct(names: seq<string>, n: int)
    requires Distinct(names)
    ensures Distinct(Rows(names, n))
  {
    if names != [] {
      var a, b := Row(names[0], n), Rows(names[1..], n);
      assert Distinct(names[1..]) by {
        forall i, j | 0 <= i < j < |names[1..]| ensures names[1..][i] != names[1..][j] {
          assert names[1..][i] == names[i + 1] && names[1..][j] == names[j + 1];
        }
      }
      RowsDistinct(names[1..], n);
      forall i, j | 0 <= i < j < |a + b| ensures (a + b)[i] != (a + b)[j] {
        if i < |a| <= j {
          RowsMembers(names[1..], n, b[j - |a|]);
          assert names[0] !in names[1..] by {
            forall k | 0 <= k < |names[1..]| ensures names[1..][k] != names[0] {
              assert names[1..][k] == names[k + 1];
            }
          }
        }
      }
    }
  }

  /** upload_all's order: 17*N + M calls, of which parameter i of
      CHANNEL_PARAM_DEFAULTS on channel c is call i*N + c. */
  lemma UploadScheduleOrder(nrOutputChannels: nat, nrTriggerChannels: nat, i: nat, c: nat)
    requires i < 17 && c < nrOutputChannels
    ensures var ws := UploadSchedule(nrOutputChannels, nrTriggerChannels);
      && |ws| == 17 * nrOutputChannels + nrTriggerChannels
      && ws[i * nrOutputChannels + c] == Write(ChannelParamDefaults[i].0, c)
  {
    var names := DefaultNames(ChannelParamDefaults);
    DefaultsFollowCodes(i);
    RowsLength(names, nrOutputChannels);
    RowsAt(names, nrOutputChannels, i, c);
  }

  /** The trigger channels come last: trigger channel t is call 17*N + t. */
  lemma UploadScheduleTriggers(nrOutputChannels: nat, nrTriggerChannels: nat, t: nat)
    requires t < nrTriggerChannels
    ensures var ws := UploadSchedule(nrOutputChannels, nrTriggerChannels);
      && |ws| == 17 * nrOutputChannels + nrTriggerChannels
      && ws[17 * nrOutputChannels + t] == Write("triggerMode", t)
  {
    DefaultsFollowCodes(0);
    RowsLength(DefaultNames(ChannelParamDefaults), nrOutputChannels);
  }

  /** upload_all never programs the same cell twice. */
  lemma UploadScheduleDistinct(nrOutputChannels: int, nrTriggerChannels: int)
    ensures Distinct(UploadSchedule(nrOutputChannels, nrTriggerChannels))
  {
    var names := DefaultNames(ChannelParamDefaults);
    forall i, j | 0 <= i < j < |names| ensures names[i] != names[j] {
      DefaultNamesDistinct(i, j);
    }
    RowsDistinct(names, nrOutputChannels);
    TriggerModeSeparate();
    var a, b := Rows(names, nrOutputChannels), Row("triggerMode", nrTriggerChannels);
    forall i, j | 0 <= i < j < |a + b| ensures (a + b)[i] != (a + b)[j] {
      if i < |a| <= j {
        RowsMembers(names, nrOutputChannels, a[i]);
      }
    }
  }

  // ---------------------------------------------------------------------
  // The lists __init__ creates

  /** `[value] * n`. */
  function Repeat(value: real, n: nat): (r: seq<real>)
    ensures |r| == n && forall k :: 0 <= k < n ==> r[k] == value
  {
    seq(n, _ => value)
  }

  /** `setattr(self, param, [default] * n)` for each (param, default) of
      `defaults`, in order, on top of `m`. */
  function Fill(m: Mirror, defaults: seq<(string, real)>, n: nat): Mirror
    decreases |defaults|
  {
    if defaults == [] then m
    else
      var last := defaults[|defaults| - 1];
      Fill(m, defaults[..|defaults| - 1], n)[last.0 := Repeat(last.1, n)]
  }

  /** With distinct names, each listed parameter gets n copies of its
      default. */
  lemma {:induction false} FillListed(m: Mirror, defaults: seq<(string, real)>, n: nat, i: nat)
    requires Distinct(DefaultNames(defaults)) && i < |defaults|
    decreases |defaults|
    ensures defaults[i].0 in Fill(m, defaults, n)
    ensures Fill(m, defaults, n)[defaults[i].0] == Repeat(defaults[i].1, n)
  {
    var last := |defaults| - 1;
    if i < last {
      var front := defaults[..last];
      assert DefaultNames(defaults)[i] != DefaultNames(defaults)[last];
      assert Distinct(DefaultNames(front)) by {
        forall a, b | 0 <= a < b < |front| ensures DefaultNames(front)[a] != DefaultNames(front)[b] {
          assert DefaultNames(front)[a] == DefaultNames(defaults)[a];
          assert DefaultNames(front)[b] == DefaultNames(defaults)[b];
        }
      }
      FillListed(m, front, n, i);
    }
  }

  /** A parameter that is not listed keeps its list, or stays absent. */
  lemma {:induction false} FillUnlisted(m: Mirror, defaults: seq<(string, real)>, n: nat, name: string)
    requires name !in DefaultNames(defaults)
    decreases |defaults|
    ensures name in Fill(m, defaults, n) <==> name in m
    ensures name in m ==> Fill(m, defaults, n)[name] == m[name]
  {
    if defaults != [] {
      var front := defaults[..|defaults| - 1];
      assert name != DefaultNames(defaults)[|defaults| - 1];
      assert name !in DefaultNames(front) by {
        forall k | 0 <= k < |front| ensures DefaultNames(front)[k] != name {
          assert DefaultNames(front)[k] == DefaultNames(defaults)[k];
        }
      }
      FillUnlisted(m, front, n, name);
    }
  }

  /** The lists __init__ creates before it stores its arguments: every
      channel parameter's default on the 4 channels of the class default,
      and triggerMode's default on the 2 trigger channels of the class
      default. */
  function DefaultMirror(): Mirror
  {
    Fill(Fill(map[], ChannelParamDefaults, 4), TriggerParamDefaults, 2)
  }

  /** The default lists: exactly the registered parameters, each channel
      parameter with four copies of its default and triggerMode with two
      zeros. */
  lemma DefaultMirrorLists(i: nat)
    requires i < 17
    ensures |ChannelParamDefaults| == 17
    ensures ChannelParamDefaults[i].0 in DefaultMirror()
    ensures DefaultMirror()[ChannelParamDefaults[i].0] == Repeat(ChannelParamDefaults[i].1, 4)
    ensures "triggerMode" in DefaultMirror() && DefaultMirror()["triggerMode"] == [0.0, 0.0]
  {
    var names := DefaultNames(ChannelParamDefaults);
    DefaultsFollowCodes(i);
    forall a, b | 0 <= a < b < |names| ensures names[a] != names[b] {
      DefaultNamesDistinct(a, b);
    }
    FillListed(map[], ChannelParamDefaults, 4, i);
    TriggerModeSeparate();
    FillUnlisted(Fill(map[], ChannelParamDefaults, 4), TriggerParamDefaults, 2, ChannelParamDefaults[i].0);
    assert DefaultNames(TriggerParamDefaults)[0] == "triggerMode";
    FillListed(Fill(map[], ChannelParamDefaults, 4), TriggerParamDefaults, 2, 0);
  }

  lemma DefaultMirrorKeys(name: string)
    ensures name in DefaultMirror() <==> name in ParamNames
  {
    var names := DefaultNames(ChannelParamDefaults);
    RegisteredNames(name);
    TriggerModeSeparate();
    assert DefaultNames(TriggerParamDefaults)[0] == "triggerMode";
    if name == "triggerMode" {
      FillListed(Fill(map[], ChannelParamDefaults, 4), TriggerParamDefaults, 2, 0);
    } else {
      FillUnlisted(Fill(map[], ChannelParamDefaults, 4), TriggerParamDefaults, 2, name);
      if name in names {
        var i :| 0 <= i < |names| && names[i] == name;
        DefaultMirrorLists(i);
      } else {
        FillUnlisted(map[], ChannelParamDefaults, 4, name);
      }
    }
  }

  // ---------------------------------------------------------------------
  // upload_all on the default lists

  lemma {:induction false} FitsEvery(m: Mirror, ws: seq<Write>)
    decreases |ws|
    ensures Fits(m, ws) <==> forall w :: w in ws ==> Fits1(m, w)
  {
    if ws != [] {
      FitsEvery(m, ws[1..]);
      assert ws == [ws[0]] + ws[1..];
    }
  }

  /** With at most the 4 output and 2 trigger channels the default lists
      were sized for, every call of upload_all finds its cell. */
  lemma ScheduleFitsDefaults(nrOutputChannels: int, nrTriggerChannels: int)
    requires nrOutputChannels <= 4 && nrTriggerChannels <= 2
    ensures Fits(DefaultMirror(), UploadSchedule(nrOutputChannels, nrTriggerChannels))
  {
    var names := DefaultNames(ChannelParamDefaults);
    var ws := UploadSchedule(nrOutputChannels, nrTriggerChannels);
    forall w | w in ws ensures Fits1(DefaultMirror(), w) {
      DefaultMirrorKeys(w.name);
      RegisteredNames(w.name);
      if w in Rows(names, nrOutputChannels) {
        RowsMembers(names, nrOutputChannels, w);
        var i :| 0 <= i < |names| && names[i] == w.name;
        DefaultMirrorLists(i);
      } else {
        DefaultMirrorLists(0);
      }
    }
    FitsEvery(DefaultMirror(), ws);
  }

  /** Storing confirmed writes never adds, removes or resizes a list. */
  lemma {:induction false} ApplyWritesShape(m: Mirror, p: Profile, ws: seq<Write>)
    decreases |ws|
    ensures SameShape(m, ApplyWrites(m, p, ws))
  {
    if ws != [] {
      var m1 := Store(p, m, ws[0]);
      assert ApplyWrites(m, p, ws) == ApplyWrites(m1, p, ws[1..]);
      ApplyWritesShape(m1, p, ws[1..]);
    }
  }

  /** upload_all over two schedules one after the other: the second runs
      only when the first passes, from where the first left off. */
  lemma {:induction false} RunWritesAppend(m: Mirror, link: Link, opcode: int, p: Profile, a: seq<Write>, b: seq<Write>)
    requires Wired(p)
    decreases |a|
    ensures var r := RunWrites(m, link, opcode, p, a);
      RunWrites(m, link, opcode, p, a + b)
      == if r.outcome == Pass then RunWrites(r.mirror, r.link, opcode, p, b) else r
  {
    if a == [] {
      assert a + b == b;
    } else {
      var w := a[0];
      assert (a + b)[0] == w && (a + b)[1..] == a[1..] + b;
      if w.name in m && w.channel < |m[w.name]| {
        var s := ProgramOneStep(m, link, opcode, p, w.channel, Name(w.name), m[w.name][w.channel]);
        if s.result == Ok(true) {
          RunWritesAppend(s.mirror, s.link, opcode, p, a[1..], b);
          assert RunWrites(m, link, opcode, p, a) == RunWrites(s.mirror, s.link, opcode, p, a[1..]);
          assert RunWrites(m, link, opcode, p, a + b) == RunWrites(s.mirror, s.link, opcode, p, a[1..] + b);
        }
      }
    }
  }

  /** A call whose list is too short for its channel raises an IndexError
      before anything is sent. */
  lemma RunWritesMissingFirst(m: Mirror, link: Link, opcode: int, p: Profile, ws: seq<Write>)
    requires Wired(p) && ws != [] && ws[0].name in m && ws[0].channel >= |m[ws[0].name]|
    ensures RunWrites(m, link, opcode, p, ws) == Run(m, link, Fail(IndexOutOfRange))
  {
  }

  /** upload_all when the list of call k is too short for its channel
      and the device confirms the k calls before it: those k calls are
      stored and sent, and the run stops with an IndexError without
      sending anything for call k. */
  lemma UploadRunMissingCell(m: Mirror, link: Link, opcode: int, p: Profile, ws: seq<Write>, k: nat)
    requires Wired(p) && k < |ws| && Fits(m, ws[..k]) && Confirmed(link.replies) >= k
    requires ws[k].name in m && ws[k].channel >= |m[ws[k].name]|
    ensures RunWrites(m, link, opcode, p, ws)
            == Run(ApplyWrites(m, p, ws[..k]), Link(link.sent + WriteFrames(m, opcode, p, ws[..k]), link.replies[k..]),
                   Fail(IndexOutOfRange))
  {
    var first, rest := ws[..k], ws[k..];
    UploadRunPasses(m, link, opcode, p, first);
    var r := RunWrites(m, link, opcode, p, first);
    ApplyWritesShape(m, p, first);
    assert rest[0] == ws[k];
    RunWritesMissingFirst(r.mirror, r.link, opcode, p, rest);
    TakeDrop(ws, k);
    RunWritesAppend(m, link, opcode, p, first, rest);
  }

  /** The lists are sized from the class defaults before __init__ stores
      its channel counts, so with more than 4 output channels upload_all
      programs channels 0..3 of isBiphasic and then fails with an
      IndexError on channel 4, having sent nothing for it. */
  lemma UploadBeyondDefaultLists(link: Link, opcode: int, p: Profile, nrOutputChannels: nat, nrTriggerChannels: nat)
    requires Wired(p) && 4 < nrOutputChannels && Confirmed(link.replies) >= 4
    ensures var ws := UploadSchedule(nrOutputChannels, nrTriggerChannels);
      && Fits(DefaultMirror(), ws[..4])
      && RunWrites(DefaultMirror(), link, opcode, p, ws)
         == Run(ApplyWrites(DefaultMirror(), p, ws[..4]),
                Link(link.sent + WriteFrames(DefaultMirror(), opcode, p, ws[..4]), link.replies[4..]),
                Fail(IndexOutOfRange))
  {
    var m := DefaultMirror();
    var ws := UploadSchedule(nrOutputChannels, nrTriggerChannels);
    forall c | 0 <= c <= 4 ensures ws[c] == Write("isBiphasic", c) {
      UploadScheduleOrder(nrOutputChannels, nrTriggerChannels, 0, c);
    }
    DefaultMirrorLists(0);
    RegisteredNames("isBiphasic");
    FitsEvery(m, ws[..4]);
    UploadRunMissingCell(m, link, opcode, p, ws, 4);
  }

  // ---------------------------------------------------------------------
  // The config setter

  /** One `prop_name: prop_value` entry of the "channels" or "triggers"
      section of a config, its channel key already converted with int(). */
  datatype Setting = Setting(channel: int, name: string, value: real)

  /** A config as the setter walks it: the top-level entries that carry a
      parameter list, then the entries of "channels" and of "triggers",
      each section flattened in insertion order. */
  datatype Config = Config(top: seq<(string, seq<real>)>, channels: seq<Setting>, triggers: seq<Setting>)

  /** The setter's first loop: a top-level key naming a parameter list
      replaces that list; any other key is only reported. */
  function SetAttributes(m: Mirror, top: seq<(string, seq<real>)>): (m': Mirror)
    ensures m'.Keys == m.Keys
    decreases |top|
  {
    if top == [] then m
    else SetAttributes(if top[0].0 in m then m[top[0].0 := top[0].1] else m, top[1..])
  }

  /** A list no top-level entry names is kept. */
  lemma {:induction false} SetAttributesUntouched(m: Mirror, top: seq<(string, seq<real>)>, name: string)
    requires name in m && forall i :: 0 <= i < |top| ==> top[i].0 != name
    decreases |top|
    ensures SetAttributes(m, top)[name] == m[name]
  {
    if top != [] {
      var m1 := if top[0].0 in m then m[top[0].0 := top[0].1] else m;
      SetAttributesUntouched(m1, top[1..], name);
    }
  }

  /** A list named by top-level entries ends up as the last entry's value. */
  lemma {:induction false} SetAttributesLastWins(m: Mirror, top: seq<(string, seq<real>)>, i: nat)
    requires i < |top| && top[i].0 in m
    requires forall k :: i < k < |top| ==> top[k].0 != top[i].0
    decreases |top|
    ensures SetAttributes(m, top)[top[i].0] == top[i].1
  {
    var m1 := if top[0].0 in m then m[top[0].0 := top[0].1] else m;
    if i == 0 {
      SetAttributesUntouched(m1, top[1..], top[0].0);
    } else {
      SetAttributesLastWins(m1, top[1..], i - 1);
    }
  }

  /** The cell `getattr(self, s.name)[s.channel]` exists. */
  predicate Valid(m: Mirror, s: Setting)
  {
    s.name in m && PyIndex(s.channel, |m[s.name]|).Some?
  }

  /** Whether a cell exists depends only on the shape of the lists. */
  lemma ValidAfterSameShape(m: Mirror, m': Mirror, s: Setting)
    requires SameShape(m, m')
    ensures Valid(m', s) <==> Valid(m, s)
  {
  }

  /** Setting `s` writes cell `j` of list `name`. */
  predicate Targets(m: Mirror, s: Setting, name: string, j: nat)
  {
    s.name == name && name in m && PyIndex(s.channel, |m[name]|) == Some(j)
  }

  /** The setter's loops over one section: each entry overwrites its cell;
      the first entry without a cell raises (AttributeError, or TypeError
      when the named attribute is no list, or IndexError) and leaves the
      cells written before it. */
  function Overwrite(m: Mirror, settings: seq<Setting>): (r: (Mirror, Outcome))
    ensures SameShape(m, r.0)
    decreases |settings|
  {
    if settings == [] then (m, Pass)
    else
      match SetCell(m, settings[0].name, settings[0].channel, settings[0].value)
      case Err(e) => (m, Fail(e))
      case Ok(m1) => Overwrite(m1, settings[1..])
  }

  /** A section passes exactly when every entry has a cell. */
  lemma {:induction false} OverwritePasses(m: Mirror, settings: seq<Setting>)
    decreases |settings|
    ensures Overwrite(m, settings).1 == Pass <==> forall i :: 0 <= i < |settings| ==> Valid(m, settings[i])
  {
    if settings != [] {
      var s := settings[0];
      if Valid(m, s) {
        var m1 := SetCell(m, s.name, s.channel, s.value).value;
        OverwritePasses(m1, settings[1..]);
        forall i | 0 <= i < |settings| - 1
          ensures Valid(m1, settings[1..][i]) <==> Valid(m, settings[i + 1])
        {
          ValidAfterSameShape(m, m1, settings[i + 1]);
        }
      }
    }
  }

  /** The first entry without a cell stops the section with its error,
      after the entries before it were written. */
  lemma {:induction false} OverwriteStops(m: Mirror, settings: seq<Setting>, i: nat)
    requires i < |settings| && !Valid(m, settings[i])
    requires forall k :: 0 <= k < i ==> Valid(m, settings[k])
    decreases |settings|
    ensures Overwrite(m, settings)
            == (Overwrite(m, settings[..i]).0, Fail(if settings[i].name in m then IndexOutOfRange else NoSuchParameter))
  {
    var s := settings[0];
    if i > 0 {
      var m1 := SetCell(m, s.name, s.channel, s.value).value;
      assert settings[..i][0] == s && settings[..i][1..] == settings[1..][..i - 1];
      OverwriteStops(m1, settings[1..], i - 1);
    }
  }

  /** A cell no entry writes keeps its value. */
  lemma {:induction false} OverwriteUntouched(m: Mirror, settings: seq<Setting>, name: string, j: nat)
    requires name in m && j < |m[name]|
    requires forall i :: 0 <= i < |settings| ==> !Targets(m, settings[i], name, j)
    decreases |settings|
    ensures Overwrite(m, settings).0[name][j] == m[name][j]
  {
    if settings != [] {
      var s := settings[0];
      if Valid(m, s) {
        var m1 := SetCell(m, s.name, s.channel, s.value).value;
        assert !Targets(m, s, name, j);
        OverwriteUntouched(m1, settings[1..], name, j);
      }
    }
  }

  /** When every entry has a cell, a cell written by several entries ends
      up with the value of the last of them. */
  lemma {:induction false} OverwriteLastWins(m: Mirror, settings: seq<Setting>, name: string, j: nat, i: nat)
    requires forall k :: 0 <= k < |settings| ==> Valid(m, settings[k])
    requires i < |settings| && Targets(m, settings[i], name, j)
    requires forall k :: i < k < |settings| ==> !Targets(m, settings[k], name, j)
    decreases |settings|
    ensures Overwrite(m, settings).0[name][j] == settings[i].value
  {
    var s := settings[0];
    var m1 := SetCell(m, s.name, s.channel, s.value).value;
    if i == 0 {
      OverwriteUntouched(m1, settings[1..], name, j);
    } else {
      OverwriteLastWins(m1, settings[1..], name, j, i - 1);
    }
  }

  /** Two sections one after the other: the second runs only when the
      first passes. */
  lemma {:induction false} OverwriteAppend(m: Mirror, a: seq<Setting>, b: seq<Setting>)
    decreases |a|
    ensures Overwrite(m, a + b)
            == if Overwrite(m, a).1 == Pass then Overwrite(Overwrite(m, a).0, b) else Overwrite(m, a)
  {
    if a == [] {
      assert a + b == b;
    } else {
      assert (a + b)[0] == a[0] && (a + b)[1..] == a[1..] + b;
      var s := a[0];
      if Valid(m, s) {
        OverwriteAppend(SetCell(m, s.name, s.channel, s.value).value, a[1..], b);
      }
    }
  }

  /** The config setter: the top-level entries, then the "channels"
      section, then the "triggers" section. */
  function ApplyConfig(m: Mirror, cfg: Config): (Mirror, Outcome)
  {
    var r := Overwrite(SetAttributes(m, cfg.top), cfg.channels);
    if r.1 == Pass then Overwrite(r.0, cfg.triggers) else r
  }

  /** Channel and trigger sections are handled alike: the setter is one
      overwrite run over both, in order. */
  lemma ApplyConfigFlattens(m: Mirror, cfg: Config)
    ensures ApplyConfig(m, cfg) == Overwrite(SetAttributes(m, cfg.top), cfg.channels + cfg.triggers)
  {
    OverwriteAppend(SetAttributes(m, cfg.top), cfg.channels, cfg.triggers);
  }
}
