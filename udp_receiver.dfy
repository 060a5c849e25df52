/** UDPCommunication's inbound side: InterpreteUDPData overwrites fields of the shared
    stores step by step, and its two helpers fill freshly allocated arrays in loops.
    Each method is proved to do what UdpProtocol.Interpret, Floats and PacketText say. */
module UdpReceiver {
  import opened Geometry
  import opened UdpProtocol

  /** The singleton that decodes packets, together with the shared fields it writes
      (PupilSettings' connection and calibration, PupilData's 2D and 3D telemetry),
      the PupilTools calls it makes and the packet texts it logs. */
  class UdpCommunication {
    var isConnected: bool
    var status: CalibrationStatus
    var mode: CalibrationMode
    var leftEyePos: Vec2
    var rightEyePos: Vec2
    var gaze2DPos: Vec2
    var gaze3DPos: Vec3
    var calls: seq<ToolsCall>
    var log: seq<string>

    function State(): Stores
      reads this
    {
      Stores(isConnected, status, mode, leftEyePos, rightEyePos, gaze2DPos, gaze3DPos, calls, log)
    }

    constructor (initial: Stores)
      ensures State() == initial
    {
      isConnected, status, mode := initial.isConnected, initial.status, initial.mode;
      leftEyePos, rightEyePos, gaze2DPos := initial.leftEyePos, initial.rightEyePos, initial.gaze2DPos;
      gaze3DPos, calls, log := initial.gaze3DPos, initial.calls, initial.log;
    }

    /** Reads (data.Length - 1) / 4 floats, element i from offset + 4*i; a read past the end
        of the packet throws. */
    method FloatArrayFromPacket(data: array<byte>, offset: nat) returns (r: Result<seq<Word>>)
      ensures r == Floats(data[..], offset)
    {
      var n := if data.Length == 0 then 0 else (data.Length - 1) / 4;
      var floats := new Word[n];
      for i := 0 to n
        invariant ReadWords(data[..], offset, i) == Ok(floats[..i])
      {
        var start := offset + 4 * i;
        if data.Length < start + 4 {
          ReadWordsStopsAtFirstOverrun(data[..], offset, i, n);
          return Err(FloatReadOutOfRange(start));
        }
        floats[i] := Word(data[start], data[start + 1], data[start + 2], data[start + 3]);
        assert floats[..i + 1] == floats[..i] + [WordAt(data[..], start)];
      }
      assert floats[..] == floats[..n];
      r := Ok(floats[..]);
    }

    /** Copies the packet after its tag byte into a new array and reads it as ASCII. */
    method StringFromPacket(data: array<byte>) returns (text: string)
      requires data.Length >= 1
      ensures text == PacketText(data[..])
    {
      var message := new byte[data.Length - 1];
      for i := 1 to data.Length
        invariant forall k :: 0 <= k < i - 1 ==> message[k] == data[k + 1]
      {
        message[i - 1] := data[i];
      }
      text := seq(message.Length, k requires 0 <= k < message.Length reads message => AsciiChar(message[k]));
    }

    /** The dispatch on the first byte of a packet. The result is the exception the C# code
        would throw, if any; fields written before it stay written. */
    method InterpreteUDPData(data: array<byte>, toSingle: Word -> real) returns (fault: Option<Fault>)
      modifies this
      ensures Applied(State(), fault) == Interpret(old(State()), data[..], toSingle)
    {
      fault := None;
      if data.Length == 0 {
        return Some(PacketIndexOutOfRange(0));
      }
      if data[0] == TagConnection {
        if data.Length < 2 {
          return Some(PacketIndexOutOfRange(1));
        }
        if data[1] == TagConnected {
          isConnected := true;
        }
      } else if data[0] == TagEvent {
        fault := InterpreteEvent(data, toSingle);
      } else if data[0] == TagCalibrationCommand {
        if data.Length < 2 {
          return Some(PacketIndexOutOfRange(1));
        }
        if data[1] == CommandStart {
          calls := calls + [Start];
        } else {
          calls := calls + [Stop];
        }
      } else if data[0] == TagForceMode2D {
        mode := Mode2D;
      } else {
        var text := StringFromPacket(data);
        log := log + [text];
      }
    }

    /** The 'E' branch: calibration-ended and gaze events. */
    method InterpreteEvent(data: array<byte>, toSingle: Word -> real) returns (fault: Option<Fault>)
      requires data.Length >= 1 && data[0] == TagEvent
      modifies this
      ensures Applied(State(), fault) == Interpret(old(State()), data[..], toSingle)
    {
      fault := None;
      if data.Length < 2 {
        return Some(PacketIndexOutOfRange(1));
      }
      if data[1] == TagCalibrationEnded {
        if data.Length < 3 {
          return Some(PacketIndexOutOfRange(2));
        }
        if data[2] == TagSucceeded {
          status := Succeeded;
          calls := calls + [Finished];
        } else if data[2] == TagFailed {
          status := NotSet;
          calls := calls + [Failed];
        }
      } else if data[1] == TagGaze {
        if data.Length < 3 {
          return Some(PacketIndexOutOfRange(2));
        }
        if data[2] == TagGaze2D {
          if data.Length < 4 {
            return Some(PacketIndexOutOfRange(3));
          }
          if data[3] == TagLeftEye {
            fault := InterpreteLeftEye(data, toSingle);
          } else if data[3] == TagRightEye {
            fault := InterpreteRightEye(data, toSingle);
          } else if data[3] == TagGazePoint2D {
            fault := InterpreteGaze2D(data, toSingle);
          }
        } else if data[2] == TagGaze3D {
          fault := InterpreteGaze3D(data, toSingle);
        }
      }
    }

    method InterpreteLeftEye(data: array<byte>, toSingle: Word -> real) returns (fault: Option<Fault>)
      requires data.Length >= 4 && data[0] == TagEvent && data[1] == TagGaze && data[2] == TagGaze2D
      requires data[3] == TagLeftEye
      modifies this`leftEyePos
      ensures Applied(State(), fault) == Interpret(old(State()), data[..], toSingle)
    {
      fault := None;
      var floats := FloatArrayFromPacket(data, 4);
      if floats.Err? { return Some(floats.fault); }
      if |floats.value| < 1 { return Some(FloatIndexOutOfRange(0)); }
      leftEyePos := leftEyePos.(x := toSingle(floats.value[0]));
      if |floats.value| < 2 { return Some(FloatIndexOutOfRange(1)); }
      leftEyePos := leftEyePos.(y := toSingle(floats.value[1]));
    }

    method InterpreteRightEye(data: array<byte>, toSingle: Word -> real) returns (fault: Option<Fault>)
      requires data.Length >= 4 && data[0] == TagEvent && data[1] == TagGaze && data[2] == TagGaze2D
      requires data[3] == TagRightEye
      modifies this`rightEyePos
      ensures Applied(State(), fault) == Interpret(old(State()), data[..], toSingle)
    {
      fault := None;
      var floats := FloatArrayFromPacket(data, 4);
      if floats.Err? { return Some(floats.fault); }
      if |floats.value| < 1 { return Some(FloatIndexOutOfRange(0)); }
      rightEyePos := rightEyePos.(x := toSingle(floats.value[0]));
      if |floats.value| < 2 { return Some(FloatIndexOutOfRange(1)); }
      rightEyePos := rightEyePos.(y := toSingle(floats.value[1]));
    }

    method InterpreteGaze2D(data: array<byte>, toSingle: Word -> real) returns (fault: Option<Fault>)
      requires data.Length >= 4 && data[0] == TagEvent && data[1] == TagGaze && data[2] == TagGaze2D
      requires data[3] == TagGazePoint2D
      modifies this`gaze2DPos
      ensures Applied(State(), fault) == Interpret(old(State()), data[..], toSingle)
    {
      fault := None;
      var floats := FloatArrayFromPacket(data, 4);
      if floats.Err? { return Some(floats.fault); }
      if |floats.value| < 1 { return Some(FloatIndexOutOfRange(0)); }
      gaze2DPos := gaze2DPos.(x := toSingle(floats.value[0]));
      if |floats.value| < 2 { return Some(FloatIndexOutOfRange(1)); }
      gaze2DPos := gaze2DPos.(y := toSingle(floats.value[1]));
    }

    method InterpreteGaze3D(data: array<byte>, toSingle: Word -> real) returns (fault: Option<Fault>)
      requires data.Length >= 3 && data[0] == TagEvent && data[1] == TagGaze && data[2] == TagGaze3D
      modifies this`gaze3DPos
      ensures Applied(State(), fault) == Interpret(old(State()), data[..], toSingle)
    {
      fault := None;
      var floats := FloatArrayFromPacket(data, 4);
      if floats.Err? { return Some(floats.fault); }
      if |floats.value| < 1 { return Some(FloatIndexOutOfRange(0)); }
      gaze3DPos := gaze3DPos.(x := toSingle(floats.value[0]) / PupilUnitScalingFactor);
      if |floats.value| < 2 { return Some(FloatIndexOutOfRange(1)); }
      gaze3DPos := gaze3DPos.(y := toSingle(floats.value[1]) / PupilUnitScalingFactor);
      if |floats.value| < 3 { return Some(FloatIndexOutOfRange(2)); }
      gaze3DPos := gaze3DPos.(z := toSingle(floats.value[2]) / PupilUnitScalingFactor);
    }
  }
}
