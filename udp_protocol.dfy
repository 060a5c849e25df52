/** The inbound packet format of the HoloLens client: a tagged byte stream with no
    length prefix. `Decode` classifies a packet the way InterpreteUDPData branches on
    its first bytes, `Apply` is the effect of a classified packet on the shared
    status and telemetry stores, and `Interpret` is the two together.
    C# exceptions (an index past the end of the packet, a float read that overruns it,
    an index past the end of the float array) are modelled as a `Fault`. */
module UdpProtocol {
  import opened Geometry

  type byte = b: int | 0 <= b < 0x100

  // Tag bytes of the protocol.
  const TagConnection: byte := '0' as int
  const TagConnected: byte := 'I' as int
  const TagEvent: byte := 'E' as int
  const TagCalibrationEnded: byte := 'C' as int
  const TagSucceeded: byte := 'S' as int
  const TagFailed: byte := 'F' as int
  const TagGaze: byte := 'G' as int
  const TagGaze2D: byte := '2' as int
  const TagGaze3D: byte := '3' as int
  const TagLeftEye: byte := '1' as int
  const TagRightEye: byte := '0' as int
  const TagGazePoint2D: byte := '2' as int
  const TagCalibrationCommand: byte := 90
  const TagForceMode2D: byte := 91
  const CommandStart: byte := 1

  /** The four bytes of one packed float, in packet order (BitConverter reads them
      little-endian, b0 least significant). */
  datatype Word = Word(b0: byte, b1: byte, b2: byte, b3: byte)

  datatype Option<T> = None | Some(value: T)

  datatype Fault =
    | PacketIndexOutOfRange(index: nat)      // data[index] with index >= data.Length
    | FloatReadOutOfRange(startIndex: nat)   // BitConverter.ToSingle(data, startIndex) past the end
    | FloatIndexOutOfRange(index: nat)       // floats[index] with index >= floats.Length

  datatype Result<T> = Ok(value: T) | Err(fault: Fault)

  /** PupilSettings.PupilUnitScalingFactor, protocol units to engine units (millimetres to
      metres). PupilSettings is not part of this model; the value 1000 is assumed. */
  const PupilUnitScalingFactor: real := 1000.0

  function WordAt(data: seq<byte>, start: nat): Word
    requires start + 4 <= |data|
  {
    Word(data[start], data[start + 1], data[start + 2], data[start + 3])
  }

  /** Length of the float array FloatArrayFromPacket allocates: (data.Length - 1) / 4
      with C#'s truncating division, whatever the offset it reads from. */
  function FloatCount(len: nat): nat
  {
    if len == 0 then 0 else (len - 1) / 4
  }

  /** The first n reads of the float loop, element i from offset + 4*i; the first read
      that does not fit in the packet throws. */
  function ReadWords(data: seq<byte>, offset: nat, n: nat): (r: Result<seq<Word>>)
    ensures r.Ok? <==> n == 0 || offset + 4 * n <= |data|
    ensures r.Ok? ==> |r.value| == n
    ensures r.Ok? ==> forall i :: 0 <= i < n ==> offset + 4 * i + 4 <= |data| && r.value[i] == WordAt(data, offset + 4 * i)
    ensures r.Err? ==> r.fault.FloatReadOutOfRange?
    decreases n
  {
    if n == 0 then Ok([])
    else
      match ReadWords(data, offset, n - 1)
      case Err(f) => Err(f)
      case Ok(ws) =>
        var start := offset + 4 * (n - 1);
        if start + 4 <= |data| then Ok(ws + [WordAt(data, start)])
        else Err(FloatReadOutOfRange(start))
  }

  /** Once a read overruns, the loop stops there: every longer run fails with that read's offset. */
  lemma {:induction false} ReadWordsStopsAtFirstOverrun(data: seq<byte>, offset: nat, i: nat, n: nat)
    requires i < n
    requires ReadWords(data, offset, i).Ok?
    requires |data| < offset + 4 * i + 4
    ensures ReadWords(data, offset, n) == Err(FloatReadOutOfRange(offset + 4 * i))
    decreases n
  {
    if n > i + 1 {
      ReadWordsStopsAtFirstOverrun(data, offset, i, n - 1);
    }
  }

  /** What FloatArrayFromPacket(data, offset) returns or throws. */
  function Floats(data: seq<byte>, offset: nat): Result<seq<Word>>
  {
    ReadWords(data, offset, FloatCount(|data|))
  }

  /** With the offset 4 the decoder uses, FloatCount elements fit exactly when the packet
      length is a multiple of 4, and then there are |data|/4 - 1 of them; any other length
      of at least 5 makes the last read overrun. */
  lemma FloatsAtOffsetFour(data: seq<byte>)
    ensures |data| >= 4 ==> (Floats(data, 4).Ok? <==> |data| % 4 == 0)
    ensures |data| >= 4 && |data| % 4 == 0 ==> |Floats(data, 4).value| == |data| / 4 - 1
    ensures |data| < 4 ==> Floats(data, 4) == Ok([])
  {
  }

  /** Encoding.ASCII.GetString on one byte: ASCII bytes map to themselves, any other byte
      to the replacement character '?'. */
  function AsciiChar(b: byte): char
  {
    if b < 0x80 then b as char else '?'
  }

  /** StringFromPacket: the packet after its tag byte, read as ASCII. */
  function PacketText(data: seq<byte>): (text: string)
    requires |data| >= 1
    ensures |text| == |data| - 1
    ensures forall i :: 0 <= i < |text| ==> text[i] == AsciiChar(data[i + 1])
    ensures forall i :: 0 <= i < |text| && data[i + 1] < 0x80 ==> text[i] as int == data[i + 1]
  {
    seq(|data| - 1, i requires 0 <= i < |data| - 1 => AsciiChar(data[i + 1]))
  }

  datatype EyeTarget = LeftEye | RightEye | GazePoint2D

  /** A packet as InterpreteUDPData classifies it. */
  datatype Message =
    | ConnectionEstablished                               // '0' 'I'
    | UnknownResponse(code: byte)                         // '0' other
    | CalibrationSuccessful                               // 'E' 'C' 'S'
    | CalibrationFailed                                   // 'E' 'C' 'F'
    | UnknownCalibrationEnded                             // 'E' 'C' other
    | Position2D(target: EyeTarget, floats: seq<Word>)    // 'E' 'G' '2' ('1' | '0' | '2')
    | UnknownGaze2D                                       // 'E' 'G' '2' other
    | Gaze3D(floats: seq<Word>)                           // 'E' 'G' '3'
    | UnknownGaze                                         // 'E' 'G' other
    | UnknownEvent                                        // 'E' other
    | CalibrationCommand(start: bool)                     // 90, start iff data[1] == 1
    | ForceMode2D                                         // 91
    | Text(text: string)                                  // anything else

  /** Reads the float array at offset 4 and wraps it, or passes on the read's fault. */
  function WithFloats(data: seq<byte>, wrap: seq<Word> -> Message): Result<Message>
  {
    match Floats(data, 4)
    case Err(f) => Err(f)
    case Ok(ws) => Ok(wrap(ws))
  }

  function Decode(data: seq<byte>): (r: Result<Message>)
    ensures r.Err? ==> r.fault == PacketIndexOutOfRange(|data|) || r.fault.FloatReadOutOfRange?
  {
    if |data| == 0 then Err(PacketIndexOutOfRange(0))
    else if data[0] == TagConnection then
      if |data| < 2 then Err(PacketIndexOutOfRange(1))
      else if data[1] == TagConnected then Ok(ConnectionEstablished)
      else Ok(UnknownResponse(data[1]))
    else if data[0] == TagEvent then
      if |data| < 2 then Err(PacketIndexOutOfRange(1))
      else if data[1] == TagCalibrationEnded then
        if |data| < 3 then Err(PacketIndexOutOfRange(2))
        else if data[2] == TagSucceeded then Ok(CalibrationSuccessful)
        else if data[2] == TagFailed then Ok(CalibrationFailed)
        else Ok(UnknownCalibrationEnded)
      else if data[1] == TagGaze then
        if |data| < 3 then Err(PacketIndexOutOfRange(2))
        else if data[2] == TagGaze2D then
          if |data| < 4 then Err(PacketIndexOutOfRange(3))
          else if data[3] == TagLeftEye then WithFloats(data, ws => Position2D(LeftEye, ws))
          else if data[3] == TagRightEye then WithFloats(data, ws => Position2D(RightEye, ws))
          else if data[3] == TagGazePoint2D then WithFloats(data, ws => Position2D(GazePoint2D, ws))
          else Ok(UnknownGaze2D)
        else if data[2] == TagGaze3D then WithFloats(data, ws => Gaze3D(ws))
        else Ok(UnknownGaze)
      else Ok(UnknownEvent)
    else if data[0] == TagCalibrationCommand then
      if |data| < 2 then Err(PacketIndexOutOfRange(1))
      else Ok(CalibrationCommand(data[1] == CommandStart))
    else if data[0] == TagForceMode2D then Ok(ForceMode2D)
    else Ok(Text(PacketText(data)))
  }

  /** Calibration.Status as far as the decoder is concerned: it writes only these two. */
  datatype CalibrationStatus = NotSet | Succeeded | OtherStatus

  /** Calibration.Mode of the client. */
  datatype CalibrationMode = Mode2D | Mode3D

  /** Calls into PupilTools, which is not part of this model. */
  datatype ToolsCall = Finished | Failed | Start | Stop

  /** The shared state the decoder writes: connection flag, calibration status and mode,
      the latest 2D/3D telemetry, the PupilTools calls made and the packet texts logged. */
  datatype Stores = Stores(
    isConnected: bool,
    status: CalibrationStatus,
    mode: CalibrationMode,
    leftEyePos: Vec2,
    rightEyePos: Vec2,
    gaze2DPos: Vec2,
    gaze3DPos: Vec3,
    calls: seq<ToolsCall>,
    log: seq<string>)

  /** The stores after handling a packet, and the exception it threw, if any. */
  datatype Applied = Applied(stores: Stores, fault: Option<Fault>)

  /** `v.x = floats[0]; v.y = floats[1];`: each assignment happens before the next index can throw. */
  function SetXY(v: Vec2, ws: seq<Word>, toSingle: Word -> real): (Vec2, Option<Fault>)
  {
    if |ws| == 0 then (v, Some(FloatIndexOutOfRange(0)))
    else if |ws| == 1 then (v.(x := toSingle(ws[0])), Some(FloatIndexOutOfRange(1)))
    else (Vec2(toSingle(ws[0]), toSingle(ws[1])), None)
  }

  /** The three component assignments of Gaze3DPosUDP, each divided by the scaling factor. */
  function SetXYZ(v: Vec3, ws: seq<Word>, toSingle: Word -> real): (Vec3, Option<Fault>)
  {
    var f := PupilUnitScalingFactor;
    if |ws| == 0 then (v, Some(FloatIndexOutOfRange(0)))
    else if |ws| == 1 then (v.(x := toSingle(ws[0]) / f), Some(FloatIndexOutOfRange(1)))
    else if |ws| == 2 then (v.(x := toSingle(ws[0]) / f, y := toSingle(ws[1]) / f), Some(FloatIndexOutOfRange(2)))
    else (Vec3(toSingle(ws[0]) / f, toSingle(ws[1]) / f, toSingle(ws[2]) / f), None)
  }

  /** Each message touches only its own fields: the connection flag, the mode and the log
      change only for their messages, PupilTools calls are only appended, and the only
      fault left at this stage is a float array too short for the fields being written. */
  function Apply(st: Stores, m: Message, toSingle: Word -> real): (r: Applied)
    ensures r.stores.isConnected == (st.isConnected || m.ConnectionEstablished?)
    ensures r.stores.mode == if m.ForceMode2D? then Mode2D else st.mode
    ensures r.stores.log == st.log + if m.Text? then [m.text] else []
    ensures !(m.CalibrationSuccessful? || m.CalibrationFailed?) ==> r.stores.status == st.status
    ensures |r.stores.calls| >= |st.calls| && r.stores.calls[..|st.calls|] == st.calls
    ensures r.fault.Some? ==> r.fault.value.FloatIndexOutOfRange? && (m.Position2D? || m.Gaze3D?)
  {
    match m
    case ConnectionEstablished => Applied(st.(isConnected := true), None)
    case CalibrationSuccessful => Applied(st.(status := Succeeded, calls := st.calls + [Finished]), None)
    case CalibrationFailed => Applied(st.(status := NotSet, calls := st.calls + [Failed]), None)
    case Position2D(LeftEye, ws) =>
      var (v, f) := SetXY(st.leftEyePos, ws, toSingle); Applied(st.(leftEyePos := v), f)
    case Position2D(RightEye, ws) =>
      var (v, f) := SetXY(st.rightEyePos, ws, toSingle); Applied(st.(rightEyePos := v), f)
    case Position2D(GazePoint2D, ws) =>
      var (v, f) := SetXY(st.gaze2DPos, ws, toSingle); Applied(st.(gaze2DPos := v), f)
    case Gaze3D(ws) =>
      var (v, f) := SetXYZ(st.gaze3DPos, ws, toSingle); Applied(st.(gaze3DPos := v), f)
    case CalibrationCommand(start) => Applied(st.(calls := st.calls + [if start then Start else Stop]), None)
    case ForceMode2D => Applied(st.(mode := Mode2D), None)
    case Text(text) => Applied(st.(log := st.log + [text]), None)
    case _ => Applied(st, None)   // unknown response or event: only a diagnostic line
  }

  /** InterpreteUDPData on a packet: classify, then apply; a fault while classifying changes nothing. */
  function Interpret(st: Stores, data: seq<byte>, toSingle: Word -> real): (r: Applied)
    ensures Decode(data).Err? ==> r.stores == st
    ensures r.fault.Some? && !r.fault.value.FloatIndexOutOfRange? ==> r.stores == st
    ensures r.fault.Some? && r.fault.value.PacketIndexOutOfRange? ==> r.fault.value.index == |data|
  {
    match Decode(data)
    case Err(f) => Applied(st, Some(f))
    case Ok(m) => Apply(st, m, toSingle)
  }

  // ---- Properties of the dispatch, one branch at a time ----

  /** '0' 'I' marks the connection established; any other second byte changes nothing. */
  lemma ConnectionPacket(st: Stores, data: seq<byte>, toSingle: Word -> real)
    requires |data| >= 2 && data[0] == TagConnection
    ensures Interpret(st, data, toSingle)
         == Applied(if data[1] == TagConnected then st.(isConnected := true) else st, None)
  {
  }

  /** 'E' 'C' 'S' sets Succeeded and reports the finish; 'E' 'C' 'F' sets NotSet and reports
      the failure; any other third byte changes nothing. */
  lemma CalibrationEndedPacket(st: Stores, data: seq<byte>, toSingle: Word -> real)
    requires |data| >= 3 && data[0] == TagEvent && data[1] == TagCalibrationEnded
    ensures data[2] == TagSucceeded ==>
      Interpret(st, data, toSingle) == Applied(st.(status := Succeeded, calls := st.calls + [Finished]), None)
    ensures data[2] == TagFailed ==>
      Interpret(st, data, toSingle) == Applied(st.(status := NotSet, calls := st.calls + [Failed]), None)
    ensures data[2] != TagSucceeded && data[2] != TagFailed ==> Interpret(st, data, toSingle) == Applied(st, None)
  {
  }

  /** A well-formed 'E' 'G' '2' packet overwrites x and y of exactly one 2D position, chosen by
      the fourth byte, from the floats at offsets 4 and 8; an unknown fourth byte changes nothing. */
  lemma Position2DPacket(st: Stores, data: seq<byte>, toSingle: Word -> real)
    requires |data| >= 12 && |data| % 4 == 0
    requires data[0] == TagEvent && data[1] == TagGaze && data[2] == TagGaze2D
    ensures var p := Vec2(toSingle(WordAt(data, 4)), toSingle(WordAt(data, 8)));
      Interpret(st, data, toSingle) == Applied(
        if data[3] == TagLeftEye then st.(leftEyePos := p)
        else if data[3] == TagRightEye then st.(rightEyePos := p)
        else if data[3] == TagGazePoint2D then st.(gaze2DPos := p)
        else st,
        None)
  {
  }

  /** A well-formed 'E' 'G' '3' packet sets the 3D gaze point from the floats at offsets 4, 8
      and 12, each divided by the unit scaling factor, and nothing else. */
  lemma Gaze3DPacket(st: Stores, data: seq<byte>, toSingle: Word -> real)
    requires |data| >= 16 && |data| % 4 == 0
    requires data[0] == TagEvent && data[1] == TagGaze && data[2] == TagGaze3D
    ensures Interpret(st, data, toSingle) == Applied(st.(gaze3DPos := Vec3(
      toSingle(WordAt(data, 4)) / PupilUnitScalingFactor,
      toSingle(WordAt(data, 8)) / PupilUnitScalingFactor,
      toSingle(WordAt(data, 12)) / PupilUnitScalingFactor)), None)
  {
  }

  /** Unknown sub-tags under 'E' or 'E' 'G' change nothing and throw nothing; a 2-byte
      'E' packet with an unknown second byte is never read further. */
  lemma UnknownEventPacket(st: Stores, data: seq<byte>, toSingle: Word -> real)
    requires |data| >= 2 && data[0] == TagEvent && data[1] != TagCalibrationEnded
    requires data[1] == TagGaze ==> |data| >= 3 && data[2] != TagGaze2D && data[2] != TagGaze3D
    ensures Interpret(st, data, toSingle) == Applied(st, None)
  {
  }

  /** An unknown fourth byte under 'E' 'G' '2' changes nothing and throws nothing, whatever
      the packet's length: no float is read. */
  lemma UnknownGaze2DPacket(st: Stores, data: seq<byte>, toSingle: Word -> real)
    requires |data| >= 4 && data[0] == TagEvent && data[1] == TagGaze && data[2] == TagGaze2D
    requires data[3] != TagLeftEye && data[3] != TagRightEye && data[3] != TagGazePoint2D
    ensures Interpret(st, data, toSingle) == Applied(st, None)
  {
  }

  /** 90 calls StartCalibration when the second byte is 1 and StopCalibration otherwise. */
  lemma CalibrationCommandPacket(st: Stores, data: seq<byte>, toSingle: Word -> real)
    requires |data| >= 2 && data[0] == TagCalibrationCommand
    ensures Interpret(st, data, toSingle)
         == Applied(st.(calls := st.calls + [if data[1] == CommandStart then Start else Stop]), None)
  {
  }

  /** 91 forces the 2D mode and touches nothing else, whatever follows it, even nothing. */
  lemma ForceMode2DPacket(st: Stores, data: seq<byte>, toSingle: Word -> real)
    requires |data| >= 1 && data[0] == TagForceMode2D
    ensures Interpret(st, data, toSingle) == Applied(st.(mode := Mode2D), None)
  {
  }

  /** Any other first byte logs the rest of the packet as text, without its tag byte. */
  lemma TextPacket(st: Stores, data: seq<byte>, toSingle: Word -> real)
    requires |data| >= 1
    requires data[0] !in {TagConnection, TagEvent, TagCalibrationCommand, TagForceMode2D}
    ensures var applied := Interpret(st, data, toSingle);
      applied.fault == None && applied.stores == st.(log := st.log + [applied.stores.log[|st.log|]])
    ensures var text := Interpret(st, data, toSingle).stores.log[|st.log|];
      |text| == |data| - 1 && forall i :: 0 <= i < |text| ==> text[i] == AsciiChar(data[i + 1])
  {
  }

  /** The dispatcher reads data[1], data[2] and data[3] without a length check: a packet cut
      short inside its tags throws for the first missing index and changes nothing. */
  lemma TruncatedTags(st: Stores, data: seq<byte>, toSingle: Word -> real)
    requires |data| < 4
    requires |data| == 0
          || (data[0] in {TagConnection, TagEvent, TagCalibrationCommand} && |data| == 1)
          || (data[0] == TagEvent && data[1] in {TagCalibrationEnded, TagGaze} && |data| == 2)
          || (data[0] == TagEvent && data[1] == TagGaze && data[2] == TagGaze2D && |data| == 3)
    ensures Interpret(st, data, toSingle) == Applied(st, Some(PacketIndexOutOfRange(|data|)))
  {
  }

  /** A gaze packet of at least 4 bytes whose length is not a multiple of 4 overruns in FloatArrayFromPacket, which
      throws before any store is written. */
  lemma MisalignedGazePacket(st: Stores, data: seq<byte>, toSingle: Word -> real)
    requires |data| >= 4 && |data| % 4 != 0
    requires data[0] == TagEvent && data[1] == TagGaze
    requires data[2] == TagGaze3D || (data[2] == TagGaze2D && data[3] in {TagLeftEye, TagRightEye, TagGazePoint2D})
    ensures Interpret(st, data, toSingle).stores == st
    ensures Interpret(st, data, toSingle).fault.Some?
    ensures Interpret(st, data, toSingle).fault.value.FloatReadOutOfRange?
  {
  }

  /** Aligned packets too short for their fields write the components that exist and then throw:
      an 8-byte 2D packet sets only x, a 12-byte 3D packet only x and y. */
  lemma ShortGazePacket(st: Stores, data: seq<byte>, toSingle: Word -> real)
    requires |data| == 8 || |data| == 12
    requires data[0] == TagEvent && data[1] == TagGaze
    ensures |data| == 8 && data[2] == TagGaze2D && data[3] == TagLeftEye ==>
      Interpret(st, data, toSingle)
        == Applied(st.(leftEyePos := st.leftEyePos.(x := toSingle(WordAt(data, 4)))), Some(FloatIndexOutOfRange(1)))
    ensures |data| == 12 && data[2] == TagGaze3D ==>
      Interpret(st, data, toSingle)
        == Applied(st.(gaze3DPos := st.gaze3DPos.(x := toSingle(WordAt(data, 4)) / PupilUnitScalingFactor,
                                                  y := toSingle(WordAt(data, 8)) / PupilUnitScalingFactor)),
                   Some(FloatIndexOutOfRange(2)))
  {
  }

  /** A packet at least 4 bytes long whose length is a multiple of 4 never faults while being
      classified; every classification fault is a missing tag byte or a float overrun of a
      packet whose length is not a multiple of 4. */
  lemma DecodeFaults(data: seq<byte>)
    ensures |data| >= 4 && |data| % 4 == 0 ==> Decode(data).Ok?
    ensures Decode(data).Err? ==>
      (|data| < 4 && Decode(data).fault == PacketIndexOutOfRange(|data|))
      || (|data| > 4 && |data| % 4 != 0 && Decode(data).fault.FloatReadOutOfRange?)
  {
  }
}
