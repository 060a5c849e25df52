# hmd-eyes calibration and UDP decoding, modelled in Dafny

This project models the deterministic core of the hmd-eyes head-mounted-display eye-tracking
client:

- **Calibration settings** (`settings.dfy`, module `Settings`): the plugin name and position key
  chosen by the calibration mode, the sample rate derived from the timing fields, and the defaults.
- **Calibration controller** (`calibration_controller.dfy`, module `Controller`): the per-frame
  state machine that loads targets one after another, takes rate-limited reference samples after a
  settle window, sends a batch when the sample count or the time cap is reached, and stops after
  the last target. `CalibrationController` is a class whose methods update its fields in place.
  The Calibration object it drives is not part of this model. The class `Calibration` stands in
  for it: a running flag, the pending batch (cleared on send), and a ghost log of the batches sent
  during the current run. `Valid()` is the invariant kept between ticks.
- **Inbound UDP packet decoding** (`udp_protocol.dfy`, module `UdpProtocol`; `udp_receiver.dfy`,
  module `UdpReceiver`): the tagged byte-stream parser of `UDPCommunication`.
  - `Decode` classifies a packet.
  - `Apply` is the classified packet's effect on the shared status and telemetry stores.
  - `Interpret` is the two together.
  - The class `UdpCommunication` holds those stores. Its imperative `InterpreteUDPData` and the
    loop helpers `FloatArrayFromPacket` and `StringFromPacket` are proved equal to the pure
    definitions.
  - C# exceptions are modelled as `Fault` values:
    - a packet index past the end of the packet;
    - a `BitConverter.ToSingle` read past the end of the packet;
    - an index past the end of the float array.
  - Fields written before an exception stay written. An 8-byte left-eye packet sets x and then
    throws; a 12-byte 3D gaze packet sets x and y and then throws.

`Geometry` holds the vector records. The source has two unit scaling constants: `Helpers.PupilUnitScalingFactor` multiplies the 3D reference data in the controller, and `PupilSettings.PupilUnitScalingFactor` divides the 3D gaze in the decoder. Each is a constant of its own module here (`Controller.PupilUnitScalingFactor`, `UdpProtocol.PupilUnitScalingFactor`). The model assumes both are 1000 (metres to millimetres), since neither defining class is part of it.

Floats in packets are kept as their raw 4-byte words (`Word`). Their IEEE-754 value is a
parameter `toSingle` of `InterpreteUDPData`. Times, the sample rate and the 3D scaling are `real`.
Unity's clock, frame time, key state, connection state and camera are parameters of each
controller call.

## Model

| member | source | states |
|---|---|---|
| Settings.DefaultSettings | plugin/Scripts/CalibrationSettings.cs:48-51 | A fresh settings asset is in 2D mode, satisfies the sample-rate precondition, and its sample rate (40 / 0.9) lies between 44 and 45 samples per second |
| Settings.PluginName | plugin/Scripts/CalibrationSettings.cs:18-31 | The plugin name is "HMD_Calibration" exactly in 2D mode and "HMD_Calibration_3D" exactly in 3D mode |
| Settings.PositionKey | plugin/Scripts/CalibrationSettings.cs:33-46 | The position key is "norm_pos" exactly in 2D mode and "mm_pos" exactly in 3D mode |
| Settings.TagsIdentifyMode | plugin/Scripts/CalibrationSettings.cs:18-46 | Two settings get the same plugin name, and the same position key, if and only if they have the same mode |
| Settings.SampleRate | plugin/Scripts/CalibrationSettings.cs:53-59 | The rate times the sampled window (secondsPerTarget - ignoreInitialSeconds) is samplesPerTarget; it is positive when samplesPerTarget > 0 and secondsPerTarget > ignoreInitialSeconds |
| Settings.SampleIntervalSpansWindow | plugin/Scripts/CalibrationSettings.cs:57 | samplesPerTarget samples spaced 1/SampleRate apart span exactly the sampled window of a target |
| Controller.ReferencePosition | plugin/Scripts/CalibrationController.cs:149-163 | A 3D reference has 3 components: x, y divided by the aspect ratio, and z, each multiplied by the scaling factor (dividing by it, and multiplying y by the aspect, gives back the target's local coordinates). A 2D reference has 2 components, the viewport x and y of the target's world position |
| Controller.ReferenceData | plugin/Scripts/CalibrationController.cs:147-163 | The array built by AddSample, with y divided by the aspect and the in-place scaling loop, equals ReferencePosition |
| Controller.CalibrationController.AddSample | plugin/Scripts/CalibrationController.cs:145-167 | Appends exactly one sample, the current target's reference position with the given time, to the pending batch |
| Controller.CalibrationController.UpdatePosition | plugin/Scripts/CalibrationController.cs:169-177 | Loads the target at currentCalibrationPoint (which must be a valid index), moves the marker to its world position, increments the index by exactly one and sets tLastTarget to now |
| Controller.CalibrationController.InitializeCalibration | plugin/Scripts/CalibrationController.cs:63-76 | Zeroes both counters, so target 0 is the one loaded and the index is 1 afterwards; activates the marker; starts the run with an empty batch; keeps Valid |
| Controller.CalibrationController.UpdateCalibration | plugin/Scripts/CalibrationController.cs:78-118 | Keeps Valid and leaves the state Ticked describes. Unless both gates pass, no field of the controller or the Calibration changes. Otherwise it sets tLastSample to now and adds exactly one sample; the marker's active flag and the notifications stay as they were. If the batch is not due, the count goes up by one and the target, its clock and the marker stay. If it is due (count reached or time cap), the pending samples plus the new one are sent as one batch and cleared. Then either the next target is loaded, the marker moved to it, its clock restarted and the count reset to 0; or, after the last target, the run stops having sent exactly one batch per target, with the incremented count, the target, its clock and the marker left as they were. The run stays active exactly when this is not the last tick |
| Controller.CalibrationController.Update | plugin/Scripts/CalibrationController.cs:43-61 | Keeps Valid. With no run and no key release nothing changes. With a run and no key release the state is the tick's (Ticked). A key release while connected during a run stops it after the tick, leaving the tick's state, unless that tick was the run's last; only then does a new run start, so the run is active after the frame exactly when the tick ended the old one. A key release while connected with no run starts one. Any run active after a key release while connected is a fresh one: index 1, no samples, nothing sent, target 0 loaded, the marker active at its world position, the target clock at now, the notifications unchanged, and tLastSample at now if the tick took a sample, else as before |
| Controller.CalibrationController.CalibrationSucceeded | plugin/Scripts/CalibrationController.cs:120-128 | Deactivates the marker, then raises only the succeeded notification, and only when it has subscribers |
| Controller.CalibrationController.CalibrationFailed | plugin/Scripts/CalibrationController.cs:130-138 | Deactivates the marker, then raises only the failed notification, and only when it has subscribers |
| Controller.CalibrationController.CalibrationEnded | plugin/Scripts/CalibrationController.cs:140-143 | Deactivates the marker |
| Controller.CalibrationController.constructor | plugin/Scripts/CalibrationController.cs:22-29 | A new controller has no run active, both counters and both times at 0 (the C# field defaults), and satisfies Valid |
| Controller.Calibration.StartCalibration | plugin/Scripts/CalibrationController.cs:74 | The run becomes active with an empty pending batch (assumed of the Calibration object) |
| Controller.Calibration.AddCalibrationPointReferencePosition | plugin/Scripts/CalibrationController.cs:166 | Appends one (position, time) sample to the pending batch |
| Controller.Calibration.SendCalibrationReferenceData | plugin/Scripts/CalibrationController.cs:101 | Sends the pending batch as one batch of the run and clears it |
| Controller.Calibration.StopCalibration | plugin/Scripts/CalibrationController.cs:114 | The run is no longer active (assumed of the Calibration object) |
| UdpProtocol.ReadWords | unity_hololens_client/Assets/pupil_plugin/Scripts/Networking/UDPCommunication.cs:194-197 | n reads starting at offset succeed exactly when n = 0 or offset + 4n fits in the packet; they then give n words, word i being the 4 bytes at offset + 4i; a failure is a float read past the end |
| UdpProtocol.ReadWordsStopsAtFirstOverrun | unity_hololens_client/Assets/pupil_plugin/Scripts/Networking/UDPCommunication.cs:194-197 | The first read that overruns the packet ends the loop: the whole read fails with that read's start index |
| UdpProtocol.FloatsAtOffsetFour | unity_hololens_client/Assets/pupil_plugin/Scripts/Networking/UDPCommunication.cs:191-199 | At offset 4 and length at least 4, FloatArrayFromPacket succeeds exactly when the length is a multiple of 4, returning length/4 - 1 floats; shorter packets give an empty array |
| UdpProtocol.PacketText | unity_hololens_client/Assets/pupil_plugin/Scripts/Networking/UDPCommunication.cs:201-209 | The text has length len-1; character i is data[i+1] read as ASCII ('?' for bytes of 128 and above), so the tag byte is never included |
| UdpProtocol.Decode | unity_hololens_client/Assets/pupil_plugin/Scripts/Networking/UDPCommunication.cs:98-189 | Classifying a packet fails only by indexing one byte past its end or by a float read past its end |
| UdpProtocol.Apply | unity_hololens_client/Assets/pupil_plugin/Scripts/Networking/UDPCommunication.cs:103-187 | Only the connection packet sets the connection flag, only 91 changes the mode, and only text packets add to the log. Only calibration-ended packets change the status. PupilTools calls are only appended. The only fault while applying is a float array too short for a 2D or 3D position |
| UdpProtocol.Interpret | unity_hololens_client/Assets/pupil_plugin/Scripts/Networking/UDPCommunication.cs:98-189 | A packet that faults while being classified changes no store; a missing tag byte is reported at index len |
| UdpProtocol.ConnectionPacket | unity_hololens_client/Assets/pupil_plugin/Scripts/Networking/UDPCommunication.cs:103-114 | '0' 'I' sets isConnected and nothing else; any other second byte changes nothing |
| UdpProtocol.CalibrationEndedPacket | unity_hololens_client/Assets/pupil_plugin/Scripts/Networking/UDPCommunication.cs:118-132 | 'E' 'C' 'S' sets status Succeeded and calls CalibrationFinished; 'E' 'C' 'F' sets status NotSet and calls CalibrationFailed; any other third byte changes nothing |
| UdpProtocol.Position2DPacket | unity_hololens_client/Assets/pupil_plugin/Scripts/Networking/UDPCommunication.cs:133-158 | A well-formed 'E' 'G' '2' packet with fourth byte '1', '0' or '2' overwrites x and y of exactly the left-eye, right-eye or 2D gaze position from the words at offsets 4 and 8; everything else is unchanged, and an unknown fourth byte changes nothing |
| UdpProtocol.Gaze3DPacket | unity_hololens_client/Assets/pupil_plugin/Scripts/Networking/UDPCommunication.cs:159-165 | A well-formed 'E' 'G' '3' packet sets the three 3D gaze components from the words at offsets 4, 8 and 12, each divided by the unit scaling factor, and nothing else |
| UdpProtocol.UnknownEventPacket | unity_hololens_client/Assets/pupil_plugin/Scripts/Networking/UDPCommunication.cs:166-171 | An unknown second byte under 'E' (already in a 2-byte packet), or third byte under 'E' 'G', changes nothing and throws nothing |
| UdpProtocol.UnknownGaze2DPacket | unity_hololens_client/Assets/pupil_plugin/Scripts/Networking/UDPCommunication.cs:157-158 | An unknown fourth byte under 'E' 'G' '2' changes nothing and throws nothing, for any length of at least 4 |
| UdpProtocol.CalibrationCommandPacket | unity_hololens_client/Assets/pupil_plugin/Scripts/Networking/UDPCommunication.cs:174-179 | 90 calls StartCalibration when data[1] is 1 and StopCalibration otherwise, and changes nothing else |
| UdpProtocol.ForceMode2DPacket | unity_hololens_client/Assets/pupil_plugin/Scripts/Networking/UDPCommunication.cs:181-184 | 91 sets mode 2D and nothing else, even as a 1-byte packet |
| UdpProtocol.TextPacket | unity_hololens_client/Assets/pupil_plugin/Scripts/Networking/UDPCommunication.cs:185-187 | Any other first byte only logs one line: the packet's ASCII text without its tag byte |
| UdpProtocol.TruncatedTags | unity_hololens_client/Assets/pupil_plugin/Scripts/Networking/UDPCommunication.cs:100-136 | A packet that ends inside its tag bytes throws an index error for the first missing byte and changes nothing |
| UdpProtocol.MisalignedGazePacket | unity_hololens_client/Assets/pupil_plugin/Scripts/Networking/UDPCommunication.cs:134-165 | A gaze packet of at least 4 bytes whose length is not a multiple of 4 throws a float-read overrun before any store is written |
| UdpProtocol.ShortGazePacket | unity_hololens_client/Assets/pupil_plugin/Scripts/Networking/UDPCommunication.cs:136-164 | An 8-byte left-eye packet writes only x and then throws at index 1; a 12-byte 3D packet writes only x and y and then throws at index 2 |
| UdpProtocol.DecodeFaults | unity_hololens_client/Assets/pupil_plugin/Scripts/Networking/UDPCommunication.cs:98-199 | A packet of at least 4 bytes whose length is a multiple of 4 classifies without fault. Every classification fault is either a missing tag byte of a packet shorter than 4, or a float overrun of a longer packet whose length is not a multiple of 4 |
| UdpReceiver.UdpCommunication.FloatArrayFromPacket | unity_hololens_client/Assets/pupil_plugin/Scripts/Networking/UDPCommunication.cs:191-199 | The loop over a freshly allocated array returns, or throws, exactly what Floats specifies |
| UdpReceiver.UdpCommunication.StringFromPacket | unity_hololens_client/Assets/pupil_plugin/Scripts/Networking/UDPCommunication.cs:201-209 | The copy loop followed by ASCII decoding returns exactly PacketText |
| UdpReceiver.UdpCommunication.InterpreteUDPData | unity_hololens_client/Assets/pupil_plugin/Scripts/Networking/UDPCommunication.cs:98-189 | The field-by-field dispatch leaves the stores, and raises the fault, exactly as Interpret says |
| UdpReceiver.UdpCommunication.InterpreteEvent | unity_hololens_client/Assets/pupil_plugin/Scripts/Networking/UDPCommunication.cs:115-173 | The 'E' branch agrees with Interpret |
| UdpReceiver.UdpCommunication.InterpreteLeftEye | unity_hololens_client/Assets/pupil_plugin/Scripts/Networking/UDPCommunication.cs:136-142 | The left-eye branch writes only the left-eye position, as Interpret says, including the partial write before an index fault |
| UdpReceiver.UdpCommunication.InterpreteRightEye | unity_hololens_client/Assets/pupil_plugin/Scripts/Networking/UDPCommunication.cs:143-149 | The right-eye branch writes only the right-eye position, as Interpret says |
| UdpReceiver.UdpCommunication.InterpreteGaze2D | unity_hololens_client/Assets/pupil_plugin/Scripts/Networking/UDPCommunication.cs:150-156 | The 2D gaze branch writes only the 2D gaze position, as Interpret says |
| UdpReceiver.UdpCommunication.InterpreteGaze3D | unity_hololens_client/Assets/pupil_plugin/Scripts/Networking/UDPCommunication.cs:159-165 | The 3D gaze branch writes only the 3D gaze position, component by component, as Interpret says |

## Left out

- Socket setup, sending and receiving (`Start`, `SendUDPMessage`, `_SendUDPMessage`, `ToMemoryStream`, `Socket_MessageReceived`): asynchronous Windows Runtime I/O.
- The `ExecuteOnMainThread` queue: cross-thread hand-off only. It enqueues a packet only when the queue is empty, so bursts are dropped; the model starts from one packet handed to `InterpreteUDPData`.
- IEEE-754 conversion and float rounding: packets carry raw words and `toSingle` is an arbitrary function; times, rates and scaling are exact reals.
- `Debug.Log` lines other than the packet text of the default branch; the default branch's text is recorded in the `log` field.
- PupilSettings, PupilData, PupilTools, Calibration, CalibrationTargets, SubscriptionsController and Helpers are not part of this model. The stores they hold are fields of `UdpCommunication`. PupilTools calls are an appended log. Targets are a sequence of local positions. `PupilUnitScalingFactor` is fixed at 1000.
- `Calibration` is an assumed interface. `StartCalibration` empties the pending batch and makes the run active. `SendCalibrationReferenceData` sends and clears the batch. `StopCalibration` ends the run. What it sends over the network is not modelled.
- Unity camera maths (`MultiplyPoint`, `WorldToViewportPoint`, `aspect`): fields of the `Camera` parameter.
- Controller.ReferencePosition: in 3D mode the camera's aspect ratio must be non-zero. The source's float division by a zero aspect gives infinity or NaN; 2D mode never reads the aspect and demands nothing of it.
- Marker rendering beyond its active flag and position, asset plumbing, and the `OnEnable`/`OnDisable` event (un)subscription. Whether a completion event has subscribers is a parameter of the handler.
- Settings.SampleRate: when secondsPerTarget equals ignoreInitialSeconds the source's float division yields infinity or NaN; the model requires them to differ.
- Controller.CalibrationController.constructor: the controller's invariant needs at least one target, samplesPerTarget of at least 1 and secondsPerTarget greater than ignoreInitialSeconds. With no targets the source would ask CalibrationTargets for index 0; with samplesPerTarget 0 the sample count would no longer stay below it.
- Controller.CalibrationController.constructor: the marker starts hidden and no notification has been raised. The source never sets the marker's state at construction; the scene does, and the model assumes it starts inactive.
- Calibration status values other than NotSet and Succeeded are one value, `OtherStatus`, since the decoder writes only those two.
