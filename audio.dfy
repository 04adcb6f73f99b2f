/**
 * Audio.swift: the `AudioManager` set-up/running flags, and the
 * `DeviceManager` construction of a HAL output unit configured for input.
 * Component lookup, instantiation and `AudioUnitSetProperty` are the
 * oracle `ComponentHost`; the unit is returned only when every step
 * reports `noErr`, and the first failing step throws its own error.
 */
module Audio {
  import opened Wrappers
  import opened CoreAudio

  /** Which of the two (empty) transport methods ran. */
  datatype TransportCall = StartAudioCall | StopAudioCall

  /** `AudioManager`. `startAudio`/`stopAudio` have empty bodies; `transportCalls` records that they ran. */
  class AudioManager {
    var isSetup: bool
    var isRunning: bool
    ghost var transportCalls: seq<TransportCall>

    constructor ()
      ensures !isSetup && !isRunning && transportCalls == []
    {
      isSetup, isRunning := false, false;
      transportCalls := [];
    }

    /** `setupAudio`: marks the manager set up; running state untouched. */
    method SetupAudio()
      modifies this`isSetup
      ensures isSetup
      ensures isRunning == old(isRunning) && transportCalls == old(transportCalls)
    {
      isSetup := true;
    }

    /**
     * `toggleAudio`: ignored before set-up (release builds skip the
     * `assertionFailure`); afterwards stops when running and starts
     * otherwise. Neither flag changes, since both transport methods are empty.
     */
    method ToggleAudio()
      modifies this`transportCalls
      ensures isSetup == old(isSetup) && isRunning == old(isRunning)
      ensures !old(isSetup) ==> transportCalls == old(transportCalls)
      ensures old(isSetup) && old(isRunning) ==> transportCalls == old(transportCalls) + [StopAudioCall]
      ensures old(isSetup) && !old(isRunning) ==> transportCalls == old(transportCalls) + [StartAudioCall]
    {
      if !isSetup {
        return;
      }
      if isRunning {
        StopAudio();
      } else {
        StartAudio();
      }
    }

    /** `startAudio`: empty. */
    method StartAudio()
      modifies this`transportCalls
      ensures transportCalls == old(transportCalls) + [StartAudioCall]
      ensures isSetup == old(isSetup) && isRunning == old(isRunning)
    {
      transportCalls := transportCalls + [StartAudioCall];
    }

    /** `stopAudio`: empty. */
    method StopAudio()
      modifies this`transportCalls
      ensures transportCalls == old(transportCalls) + [StopAudioCall]
      ensures isSetup == old(isSetup) && isRunning == old(isRunning)
    {
      transportCalls := transportCalls + [StopAudioCall];
    }
  }

  // Core Audio constants of DeviceManager
  /** Bus that streams to output hardware. */
  const OutputBus: UInt32 := 0
  /** Bus that streams from HAL input hardware. */
  const InputBus: UInt32 := 1
  const Enabled: UInt32 := 1
  const Disabled: UInt32 := 0

  /** `AudioComponentDescription`. */
  datatype AudioComponentDescription = AudioComponentDescription(
    componentType: UInt32,
    componentSubType: UInt32,
    componentManufacturer: UInt32,
    componentFlags: UInt32,
    componentFlagsMask: UInt32)

  const AudioUnitTypeOutput: UInt32 := FourCC("auou")
  const AudioUnitSubTypeHALOutput: UInt32 := FourCC("ahal")
  const AudioUnitManufacturerApple: UInt32 := FourCC("appl")

  /** `makeAudioComponentDescriptionHALOutput`: Apple's HAL output unit, no flag constraints. */
  method MakeAudioComponentDescriptionHALOutput() returns (description: AudioComponentDescription)
    ensures description.componentType == AudioUnitTypeOutput
    ensures description.componentSubType == AudioUnitSubTypeHALOutput
    ensures description.componentManufacturer == AudioUnitManufacturerApple
    ensures description.componentFlags == 0 && description.componentFlagsMask == 0
  {
    description := AudioComponentDescription(0, 0, 0, 0, 0);
    description := description.(componentType := AudioUnitTypeOutput);
    description := description.(componentSubType := AudioUnitSubTypeHALOutput);
    description := description.(componentManufacturer := AudioUnitManufacturerApple);
    description := description.(componentFlags := 0);
    description := description.(componentFlagsMask := 0);
  }

  /** The description every HAL output lookup uses. */
  const HALOutputDescription := AudioComponentDescription(
    AudioUnitTypeOutput, AudioUnitSubTypeHALOutput, AudioUnitManufacturerApple, 0, 0)

  /** Opaque handles handed out by the component manager. */
  datatype AudioComponent = AudioComponent(ref: nat)
  datatype AudioUnit = AudioUnit(ref: nat)

  /** The C render callback installed on the unit (`AudioUnitRecordingCallback`). */
  datatype CallbackProc = AudioUnitRecordingCallback

  /** `AURenderCallbackStruct`: the callback and its raw context pointer. */
  datatype RenderCallbackStruct = RenderCallbackStruct(inputProc: CallbackProc, inputProcRefCon: nat)

  // Audio unit property identifiers and scopes
  const OutputUnitPropertyCurrentDevice: UInt32 := 2000
  const OutputUnitPropertyEnableIO: UInt32 := 2003
  const OutputUnitPropertySetInputCallback: UInt32 := 2005
  const AudioUnitPropertyStreamFormat: UInt32 := 8
  const AudioUnitScopeGlobal: UInt32 := 0
  const AudioUnitScopeInput: UInt32 := 1
  const AudioUnitScopeOutput: UInt32 := 2

  /** `size(of:)` of the values passed to `AudioUnitSetProperty`. */
  const SizeOfUInt32: UInt32 := 4
  const SizeOfStreamDescription: UInt32 := 40
  const SizeOfRenderCallbackStruct: UInt32 := 16

  /** The value passed by pointer to `AudioUnitSetProperty`. */
  datatype PropertyValue =
    | UInt32Value(n: UInt32)
    | DeviceValue(device: AudioObjectID)
    | FormatValue(format: AudioStreamBasicDescription)
    | CallbackValue(callback: RenderCallbackStruct)

  /** One `AudioUnitSetProperty` call: property, scope, element, value and its byte size. */
  datatype PropertyWrite = PropertyWrite(property: UInt32, scope: UInt32, element: UInt32,
                                         value: PropertyValue, dataSize: UInt32)

  /** The answer to `AudioComponentInstanceNew`. */
  datatype InstanceReply = InstanceReply(status: OSStatus, unit: Option<AudioUnit>)

  /** The component manager and the units it creates, as an oracle. */
  datatype ComponentHost = ComponentHost(
    findNext: AudioComponentDescription -> Option<AudioComponent>,
    instanceNew: AudioComponent -> InstanceReply,
    setProperty: (AudioUnit, PropertyWrite) -> OSStatus)

  /** `AudioUnitInputCreationError`. */
  datatype AudioUnitInputCreationError =
    | CantFindAudioHALOutputComponent
    | CantInstantiateHALOutputComponent(error: OSStatus)
    | AudioUnitNil
    | HalCantEnableInputIO(error: OSStatus)
    | HalCantDisableOutputIO(error: OSStatus)
    | HalCantSetInputDevice(error: OSStatus)
    | CantSetOutputFormat(error: OSStatus)
    | CantSetInputCallback(error: OSStatus)
    | CouldNotSetInputSampleRate(error: OSStatus)
    | Unknown

  /**
   * The five property writes that turn a HAL output unit into an input unit,
   * in the order they are made: enable input IO on the input bus, disable
   * output IO on the output bus, bind the device, set the stream format on
   * the output scope of the input bus, install the recording callback.
   */
  function InputUnitWrites(audioDeviceID: AudioObjectID, format: AudioStreamBasicDescription,
                           rawContext: nat): seq<PropertyWrite>
  {
    [ PropertyWrite(OutputUnitPropertyEnableIO, AudioUnitScopeInput, InputBus, UInt32Value(Enabled), SizeOfUInt32),
      PropertyWrite(OutputUnitPropertyEnableIO, AudioUnitScopeOutput, OutputBus, UInt32Value(Disabled), SizeOfUInt32),
      PropertyWrite(OutputUnitPropertyCurrentDevice, AudioUnitScopeGlobal, InputBus, DeviceValue(audioDeviceID), SizeOfUInt32),
      PropertyWrite(AudioUnitPropertyStreamFormat, AudioUnitScopeOutput, InputBus, FormatValue(format), SizeOfStreamDescription),
      PropertyWrite(OutputUnitPropertySetInputCallback, AudioUnitScopeGlobal, InputBus,
                    CallbackValue(RenderCallbackStruct(AudioUnitRecordingCallback, rawContext)), SizeOfRenderCallbackStruct) ]
  }

  /** The error thrown when write number `step` of `InputUnitWrites` answers `status`. */
  function StepError(step: nat, status: OSStatus): AudioUnitInputCreationError
    requires step < 5
  {
    match step
    case 0 => HalCantEnableInputIO(status)
    case 1 => HalCantDisableOutputIO(status)
    case 2 => HalCantSetInputDevice(status)
    case 3 => CantSetOutputFormat(status)
    case 4 => CantSetInputCallback(status)
  }

  /** The step an error names, if it names a property write. */
  function FailedStep(e: AudioUnitInputCreationError): Option<nat>
  {
    match e
    case HalCantEnableInputIO(_) => Some(0)
    case HalCantDisableOutputIO(_) => Some(1)
    case HalCantSetInputDevice(_) => Some(2)
    case CantSetOutputFormat(_) => Some(3)
    case CantSetInputCallback(_) => Some(4)
    case _ => None
  }

  /** A caller can tell from a step error which write failed and with which status. */
  lemma StepErrorIdentifiesStep(step: nat, status: OSStatus)
    requires step < 5
    ensures FailedStep(StepError(step, status)) == Some(step)
    ensures StepError(step, status).error == status
  {
  }

  /** The index of the first write the unit rejects, or `|writes|` when it accepts them all. */
  function FirstRejected(host: ComponentHost, unit: AudioUnit, writes: seq<PropertyWrite>): (k: nat)
    ensures k <= |writes|
    ensures forall j :: 0 <= j < k ==> host.setProperty(unit, writes[j]) == NoErr
    ensures k < |writes| ==> host.setProperty(unit, writes[k]) != NoErr
  {
    if writes == [] then 0
    else if host.setProperty(unit, writes[0]) != NoErr then 0
    else 1 + FirstRejected(host, unit, writes[1..])
  }

  /** Write `i` is the first rejected one when all before it are accepted and it is not. */
  lemma FirstRejectedAt(host: ComponentHost, unit: AudioUnit, writes: seq<PropertyWrite>, i: nat)
    requires i <= |writes|
    requires forall j :: 0 <= j < i ==> host.setProperty(unit, writes[j]) == NoErr
    requires i < |writes| ==> host.setProperty(unit, writes[i]) != NoErr
    ensures FirstRejected(host, unit, writes) == i
  {
  }

  /** The unit the first three steps yield, if they all succeed. */
  function CreatedUnit(host: ComponentHost): Option<AudioUnit>
  {
    match host.findNext(HALOutputDescription)
    case None => None
    case Some(component) =>
      var reply := host.instanceNew(component);
      if reply.status != NoErr then None else reply.unit
  }

  /**
   * `makeAudioInputUnit`. `attempted` lists the property writes made, in
   * order. A missing component, a failed instantiation and a nil unit throw
   * before any write; after that the first rejected write throws its step's
   * error carrying the status, and no later write is made. A unit left
   * behind by a failure is not disposed.
   */
  method MakeAudioInputUnit(host: ComponentHost, rawContext: nat, audioDeviceID: AudioObjectID,
                            audioStreamBasicDescription: AudioStreamBasicDescription)
    returns (r: Result<AudioUnit, AudioUnitInputCreationError>, ghost attempted: seq<PropertyWrite>)
    ensures host.findNext(HALOutputDescription).None? ==>
      r == Failure(CantFindAudioHALOutputComponent) && attempted == []
    ensures host.findNext(HALOutputDescription).Some? ==>
      var reply := host.instanceNew(host.findNext(HALOutputDescription).value);
      && (reply.status != NoErr ==> r == Failure(CantInstantiateHALOutputComponent(reply.status)) && attempted == [])
      && (reply.status == NoErr && reply.unit.None? ==> r == Failure(AudioUnitNil) && attempted == [])
    ensures CreatedUnit(host).Some? ==>
      var unit := CreatedUnit(host).value;
      var writes := InputUnitWrites(audioDeviceID, audioStreamBasicDescription, rawContext);
      var k := FirstRejected(host, unit, writes);
      && (k == |writes| ==> r == Success(unit) && attempted == writes)
      && (k < |writes| ==> r == Failure(StepError(k, host.setProperty(unit, writes[k]))) && attempted == writes[..k + 1])
    ensures r.Success? <==>
      CreatedUnit(host).Some? &&
      forall w :: w in InputUnitWrites(audioDeviceID, audioStreamBasicDescription, rawContext) ==>
        host.setProperty(CreatedUnit(host).value, w) == NoErr
  {
    attempted := [];
    ghost var writes := InputUnitWrites(audioDeviceID, audioStreamBasicDescription, rawContext);
    var audioComponentDescription := MakeAudioComponentDescriptionHALOutput();

    var found := host.findNext(audioComponentDescription);
    if found.None? {
      return Failure(CantFindAudioHALOutputComponent), attempted;
    }
    var audioComponent := found.value;

    var reply := host.instanceNew(audioComponent);
    var error := reply.status;
    if error != NoErr {
      return Failure(CantInstantiateHALOutputComponent(error)), attempted;
    }

    if reply.unit.None? {
      return Failure(AudioUnitNil), attempted;
    }
    var audioUnit := reply.unit.value;

    var enableInput := PropertyWrite(OutputUnitPropertyEnableIO, AudioUnitScopeInput, InputBus,
                                     UInt32Value(Enabled), SizeOfUInt32);
    error := host.setProperty(audioUnit, enableInput);
    attempted := attempted + [enableInput];
    if error != NoErr {
      FirstRejectedAt(host, audioUnit, writes, 0);
      return Failure(HalCantEnableInputIO(error)), attempted;
    }

    var disableOutput := PropertyWrite(OutputUnitPropertyEnableIO, AudioUnitScopeOutput, OutputBus,
                                       UInt32Value(Disabled), SizeOfUInt32);
    error := host.setProperty(audioUnit, disableOutput);
    attempted := attempted + [disableOutput];
    if error != NoErr {
      FirstRejectedAt(host, audioUnit, writes, 1);
      return Failure(HalCantDisableOutputIO(error)), attempted;
    }

    var setDevice := PropertyWrite(OutputUnitPropertyCurrentDevice, AudioUnitScopeGlobal, InputBus,
                                   DeviceValue(audioDeviceID), SizeOfUInt32);
    error := host.setProperty(audioUnit, setDevice);
    attempted := attempted + [setDevice];
    if error != NoErr {
      FirstRejectedAt(host, audioUnit, writes, 2);
      return Failure(HalCantSetInputDevice(error)), attempted;
    }

    var setFormat := PropertyWrite(AudioUnitPropertyStreamFormat, AudioUnitScopeOutput, InputBus,
                                   FormatValue(audioStreamBasicDescription), SizeOfStreamDescription);
    error := host.setProperty(audioUnit, setFormat);
    attempted := attempted + [setFormat];
    if error != NoErr {
      FirstRejectedAt(host, audioUnit, writes, 3);
      return Failure(CantSetOutputFormat(error)), attempted;
    }

    var renderCallbackStruct := RenderCallbackStruct(AudioUnitRecordingCallback, rawContext);
    var setCallback := PropertyWrite(OutputUnitPropertySetInputCallback, AudioUnitScopeGlobal, InputBus,
                                     CallbackValue(renderCallbackStruct), SizeOfRenderCallbackStruct);
    error := host.setProperty(audioUnit, setCallback);
    attempted := attempted + [setCallback];
    if error != NoErr {
      FirstRejectedAt(host, audioUnit, writes, 4);
      return Failure(CantSetInputCallback(error)), attempted;
    }

    FirstRejectedAt(host, audioUnit, writes, 5);
    return Success(audioUnit), attempted;
  }
}
