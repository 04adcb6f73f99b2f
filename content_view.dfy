/**
 * UI/ContentView.swift without its view hierarchy: the device and rate
 * selection state, the selection-change handlers, sample-rate
 * reconciliation, the per-direction device lists and the button guards.
 * `DeviceManager.getDevice` is the view's window on the catalog, taken as a
 * fixed snapshot `getDevice`.
 */
module ContentView {
  import opened Wrappers
  import opened CoreAudio
  import opened Types
  import Audio

  /** Which list a device is shown in. */
  datatype Direction = Input | Output

  predicate Serves(device: AudioDevice, direction: Direction)
  {
    match direction
    case Input => device.deviceType.isMicrophone
    case Output => device.deviceType.isSpeaker
  }

  /** `listedDevices.filter { ... }` for one direction. */
  function WithDirection(devices: seq<AudioDevice>, direction: Direction): (r: seq<AudioDevice>)
    ensures |r| <= |devices|
    ensures forall i :: 0 <= i < |r| ==> Serves(r[i], direction)
  {
    if devices == [] then []
    else
      (if Serves(devices[0], direction) then [devices[0]] else []) + WithDirection(devices[1..], direction)
  }

  /** Each device is kept as often as it is listed when it serves the direction, and dropped otherwise. */
  lemma {:induction false} WithDirectionCounts(devices: seq<AudioDevice>, direction: Direction, d: AudioDevice)
    ensures multiset(WithDirection(devices, direction))[d] == if Serves(d, direction) then multiset(devices)[d] else 0
  {
    if devices != [] {
      WithDirectionCounts(devices[1..], direction, d);
      assert devices == [devices[0]] + devices[1..];
    }
  }

  /** Filtering distributes over concatenation, so the listing order is kept. */
  lemma {:induction false} WithDirectionAppend(a: seq<AudioDevice>, b: seq<AudioDevice>, direction: Direction)
    ensures WithDirection(a + b, direction) == WithDirection(a, direction) + WithDirection(b, direction)
  {
    if a == [] {
      assert a + b == b;
    } else {
      var head := if Serves(a[0], direction) then [a[0]] else [];
      assert (a + b)[0] == a[0];
      assert (a + b)[1..] == a[1..] + b;
      WithDirectionAppend(a[1..], b, direction);
      calc {
        WithDirection(a + b, direction);
        head + WithDirection(a[1..] + b, direction);
        head + (WithDirection(a[1..], direction) + WithDirection(b, direction));
        (head + WithDirection(a[1..], direction)) + WithDirection(b, direction);
        WithDirection(a, direction) + WithDirection(b, direction);
      }
    }
  }

  /** Filtering a filtered list changes nothing. */
  lemma {:induction false} WithDirectionIdempotent(devices: seq<AudioDevice>, direction: Direction)
    ensures WithDirection(WithDirection(devices, direction), direction) == WithDirection(devices, direction)
  {
    if devices != [] {
      var rest := WithDirection(devices[1..], direction);
      WithDirectionIdempotent(devices[1..], direction);
      if Serves(devices[0], direction) {
        var once := [devices[0]] + rest;
        assert once[0] == devices[0] && once[1..] == rest;
        assert WithDirection(devices, direction) == once;
        assert WithDirection(once, direction) == [devices[0]] + WithDirection(rest, direction);
      } else {
        assert WithDirection(devices, direction) == [] + rest;
        assert [] + rest == rest;
      }
    }
  }

  /**
   * The rate the output side should take so that both sides share one clock:
   * the input rate when a selected output device lists it among its nominal
   * rates, the current output rate otherwise.
   */
  function ReconciledOutputRate(outputDevice: Option<AudioDevice>, inputRate: real, outputRate: real): real
  {
    if outputDevice.Some? && inputRate in outputDevice.value.nominalSampleRates then inputRate else outputRate
  }

  /** The suggestion is one of the two rates, is the input rate exactly when supported, and is stable. */
  lemma ReconciliationProperties(outputDevice: Option<AudioDevice>, inputRate: real, outputRate: real)
    ensures var r := ReconciledOutputRate(outputDevice, inputRate, outputRate);
      && (r == inputRate || r == outputRate)
      && (outputDevice.Some? && inputRate in outputDevice.value.nominalSampleRates ==> r == inputRate)
      && (outputDevice.None? || inputRate !in outputDevice.value.nominalSampleRates ==> r == outputRate)
      && ReconciledOutputRate(outputDevice, inputRate, r) == r
  {
  }

  /** An output device that reports no nominal rates never changes the output rate. */
  lemma NoNominalRatesNoSuggestion(device: AudioDevice, inputRate: real, outputRate: real)
    requires device.nominalSampleRates == []
    ensures ReconciledOutputRate(Some(device), inputRate, outputRate) == outputRate
  {
  }

  /** An input at 48 kHz and an output at 44.1 kHz that also supports 48 kHz: the output is moved to 48 kHz. */
  lemma ReconcileToSharedRate(output: AudioDevice)
    requires output.nominalSampleRates == [44100.0, 48000.0]
    ensures ReconciledOutputRate(Some(output), 48000.0, 44100.0) == 48000.0
    ensures ReconciledOutputRate(Some(output), 96000.0, 44100.0) == 44100.0
  {
    assert output.nominalSampleRates[1] == 48000.0;
  }

  /** What the Setup button hands to `audioManager.setupAudio`. */
  datatype SetupRequest = SetupRequest(inputDevice: AudioDevice, outputDevice: AudioDevice)

  /** The sentinel rate stored when a side's selection is cleared. */
  const NoDeviceRate: real := -1.0
  /** The rates both sides start with. */
  const InitialSampleRate: real := 24000.0

  class ContentView {
    /** `DeviceManager.getDevice`, the catalog the view reads. */
    const getDevice: AudioObjectID -> AudioDevice
    const audioManager: Audio.AudioManager
    /** `audioManager.listedDevices`, filled elsewhere. */
    var listedDevices: seq<AudioDevice>

    var selectedInputDeviceID: Option<AudioObjectID>
    var selectedOutputDeviceID: Option<AudioObjectID>
    var selectedInputSampleRate: real
    var selectedOutputSampleRate: real

    constructor (getDevice: AudioObjectID -> AudioDevice, audioManager: Audio.AudioManager,
                 listedDevices: seq<AudioDevice>)
      requires !audioManager.isSetup && !audioManager.isRunning
      ensures this.getDevice == getDevice && this.audioManager == audioManager
      ensures this.listedDevices == listedDevices
      ensures selectedInputDeviceID == None && selectedOutputDeviceID == None
      ensures selectedInputSampleRate == InitialSampleRate && selectedOutputSampleRate == InitialSampleRate
    {
      this.getDevice := getDevice;
      this.audioManager := audioManager;
      this.listedDevices := listedDevices;
      selectedInputDeviceID, selectedOutputDeviceID := None, None;
      selectedInputSampleRate, selectedOutputSampleRate := InitialSampleRate, InitialSampleRate;
    }

    /** The output device currently selected, as the catalog reports it. */
    function SelectedOutputDevice(): Option<AudioDevice>
      reads this
    {
      match selectedOutputDeviceID
      case None => None
      case Some(id) => Some(getDevice(id))
    }

    /**
     * `runSampleRateReconciliation`: snaps the output rate to the input rate
     * when the selected output device supports it; never touches the input side.
     */
    method RunSampleRateReconciliation()
      modifies this`selectedOutputSampleRate
      ensures selectedOutputSampleRate
           == ReconciledOutputRate(SelectedOutputDevice(), selectedInputSampleRate, old(selectedOutputSampleRate))
      ensures selectedInputSampleRate == old(selectedInputSampleRate)
    {
      if selectedOutputDeviceID.Some?
         && selectedInputSampleRate in getDevice(selectedOutputDeviceID.value).nominalSampleRates {
        selectedOutputSampleRate := selectedInputSampleRate;
      }
    }

    /**
     * A new input selection and its `onChange` handler, which runs only when
     * the selection actually changes: clearing it stores the -1 sentinel and
     * stops; choosing a device takes its current rate and reconciles the
     * output side.
     */
    method SelectInputDevice(deviceID: Option<AudioObjectID>)
      modifies this`selectedInputDeviceID, this`selectedInputSampleRate, this`selectedOutputSampleRate
      ensures selectedInputDeviceID == deviceID
      ensures deviceID == old(selectedInputDeviceID) ==>
        selectedInputSampleRate == old(selectedInputSampleRate) && selectedOutputSampleRate == old(selectedOutputSampleRate)
      ensures deviceID != old(selectedInputDeviceID) && deviceID.None? ==>
        selectedInputSampleRate == NoDeviceRate && selectedOutputSampleRate == old(selectedOutputSampleRate)
      ensures deviceID != old(selectedInputDeviceID) && deviceID.Some? ==>
        && selectedInputSampleRate == getDevice(deviceID.value).sampleRate
        && selectedOutputSampleRate
           == ReconciledOutputRate(SelectedOutputDevice(), selectedInputSampleRate, old(selectedOutputSampleRate))
    {
      var changed := deviceID != selectedInputDeviceID;
      selectedInputDeviceID := deviceID;
      if !changed {
        return;
      }
      if deviceID.None? {
        selectedInputSampleRate := NoDeviceRate;
        return;
      }
      selectedInputSampleRate := getDevice(deviceID.value).sampleRate;
      RunSampleRateReconciliation();
    }

    /**
     * A new output selection and its `onChange` handler, which runs only when
     * the selection actually changes: clearing it stores the -1 sentinel;
     * choosing a device takes its current rate and then reconciles it with
     * the input rate.
     */
    method SelectOutputDevice(deviceID: Option<AudioObjectID>)
      modifies this`selectedOutputDeviceID, this`selectedOutputSampleRate
      ensures selectedOutputDeviceID == deviceID
      ensures selectedInputSampleRate == old(selectedInputSampleRate)
      ensures deviceID == old(selectedOutputDeviceID) ==> selectedOutputSampleRate == old(selectedOutputSampleRate)
      ensures deviceID != old(selectedOutputDeviceID) && deviceID.None? ==> selectedOutputSampleRate == NoDeviceRate
      ensures deviceID != old(selectedOutputDeviceID) && deviceID.Some? ==>
        selectedOutputSampleRate
        == ReconciledOutputRate(Some(getDevice(deviceID.value)), selectedInputSampleRate,
                                getDevice(deviceID.value).sampleRate)
    {
      var changed := deviceID != selectedOutputDeviceID;
      selectedOutputDeviceID := deviceID;
      if !changed {
        return;
      }
      if deviceID.None? {
        selectedOutputSampleRate := NoDeviceRate;
        return;
      }
      selectedOutputSampleRate := getDevice(deviceID.value).sampleRate;
      RunSampleRateReconciliation();
    }

    /** `inputDevices`: the listed microphones, in listing order. */
    function InputDevices(): (devices: seq<AudioDevice>)
      reads this
      ensures |devices| <= |listedDevices|
      ensures forall i :: 0 <= i < |devices| ==> devices[i].deviceType.isMicrophone
    {
      WithDirection(listedDevices, Input)
    }

    /** `outputDevices`: the listed speakers, in listing order. */
    function OutputDevices(): (devices: seq<AudioDevice>)
      reads this
      ensures |devices| <= |listedDevices|
      ensures forall i :: 0 <= i < |devices| ==> devices[i].deviceType.isSpeaker
    {
      WithDirection(listedDevices, Output)
    }

    /** `inputDeviceNominalRates`: empty without a selection. */
    function InputDeviceNominalRates(): (rates: seq<real>)
      reads this
      ensures selectedInputDeviceID.None? ==> rates == []
      ensures selectedInputDeviceID.Some? ==> rates == getDevice(selectedInputDeviceID.value).nominalSampleRates
    {
      match selectedInputDeviceID
      case None => []
      case Some(id) => getDevice(id).nominalSampleRates
    }

    /** `outputDeviceNominalRates`: empty without a selection. */
    function OutputDeviceNominalRates(): (rates: seq<real>)
      reads this
      ensures selectedOutputDeviceID.None? ==> rates == []
      ensures selectedOutputDeviceID.Some? ==> rates == getDevice(selectedOutputDeviceID.value).nominalSampleRates
    {
      match selectedOutputDeviceID
      case None => []
      case Some(id) => getDevice(id).nominalSampleRates
    }

    /** The Setup button's `.disabled` condition. */
    predicate SetupDisabled()
      reads this, audioManager
    {
      selectedInputDeviceID.None? || selectedOutputDeviceID.None? || audioManager.isRunning
    }

    /** The Start/Stop button's `.disabled` condition. */
    predicate StartStopDisabled()
      reads this, audioManager
    {
      !audioManager.isSetup
    }

    /** The Start/Stop button's title: "Stop" while audio runs, "Start" otherwise. */
    function StartStopTitle(): (title: string)
      reads this, audioManager
      ensures title == "Stop" <==> audioManager.isRunning
      ensures title == "Start" <==> !audioManager.isRunning
    {
      if audioManager.isRunning then "Stop" else "Start"
    }

    /**
     * The Start/Stop button's action, `toggleAudio()`. While the button is
     * disabled the manager's own guard would make a press a no-op; once
     * enabled, one press asks for exactly one transport call, the one the
     * title names, and neither flag moves.
     */
    method StartStop()
      modifies audioManager`transportCalls
      ensures audioManager.isSetup == old(audioManager.isSetup)
      ensures audioManager.isRunning == old(audioManager.isRunning)
      ensures old(StartStopDisabled()) ==> audioManager.transportCalls == old(audioManager.transportCalls)
      ensures !old(StartStopDisabled()) && old(StartStopTitle()) == "Stop" ==>
        audioManager.transportCalls == old(audioManager.transportCalls) + [Audio.StopAudioCall]
      ensures !old(StartStopDisabled()) && old(StartStopTitle()) == "Start" ==>
        audioManager.transportCalls == old(audioManager.transportCalls) + [Audio.StartAudioCall]
    {
      audioManager.ToggleAudio();
    }

    /**
     * The Setup button's action: nothing without both selections; otherwise
     * fresh snapshots of both devices whose rates are replaced by the
     * selected rates. Whenever the button is enabled, it produces a request.
     */
    method Setup() returns (request: Option<SetupRequest>)
      ensures request.Some? <==> selectedInputDeviceID.Some? && selectedOutputDeviceID.Some?
      ensures !SetupDisabled() ==> request.Some?
      ensures request.Some? ==>
        && request.value.inputDevice == getDevice(selectedInputDeviceID.value).(sampleRate := selectedInputSampleRate)
        && request.value.outputDevice == getDevice(selectedOutputDeviceID.value).(sampleRate := selectedOutputSampleRate)
    {
      if selectedInputDeviceID.None? || selectedOutputDeviceID.None? {
        return None;
      }
      var selectedInputDevice := getDevice(selectedInputDeviceID.value);
      var selectedOutputDevice := getDevice(selectedOutputDeviceID.value);
      selectedInputDevice := selectedInputDevice.(sampleRate := selectedInputSampleRate);
      selectedOutputDevice := selectedOutputDevice.(sampleRate := selectedOutputSampleRate);
      return Some(SetupRequest(selectedInputDevice, selectedOutputDevice));
    }
  }

  /** Every device offered as an input is a listed microphone, and every listed microphone is offered. */
  lemma InputDevicesAreTheMicrophones(view: ContentView, d: AudioDevice)
    ensures d in view.InputDevices() <==> d in view.listedDevices && d.deviceType.isMicrophone
  {
    WithDirectionCounts(view.listedDevices, Input, d);
    assert d in view.InputDevices() <==> multiset(view.InputDevices())[d] > 0;
    assert d in view.listedDevices <==> multiset(view.listedDevices)[d] > 0;
  }

  /** Every device offered as an output is a listed speaker, and every listed speaker is offered. */
  lemma OutputDevicesAreTheSpeakers(view: ContentView, d: AudioDevice)
    ensures d in view.OutputDevices() <==> d in view.listedDevices && d.deviceType.isSpeaker
  {
    WithDirectionCounts(view.listedDevices, Output, d);
    assert d in view.OutputDevices() <==> multiset(view.OutputDevices())[d] > 0;
    assert d in view.listedDevices <==> multiset(view.listedDevices)[d] > 0;
  }
}
