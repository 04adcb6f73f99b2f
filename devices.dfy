/**
 * Devices.swift: the device catalog in its `AudioDevice` form. A device's
 * direction is read off the byte size of its input-scope and output-scope
 * stream lists. The query helpers shared with Devices+Formats.swift come
 * from module `DevicesFormats`.
 */
module Devices {
  import opened CoreAudio
  import Types
  import DevicesFormats

  /** `AudioDevice` as this file declares it: no nominal-rate list. */
  datatype AudioDevice = AudioDevice(id: AudioObjectID, name: string, deviceType: Types.DeviceType, sampleRate: real)

  /** Bytes per entry of a stream list (an `AudioStreamID`). */
  const StreamIDSize: nat := 4

  const InputStreamsAddress := PropertyAddress(DevicePropertyStreams, DevicePropertyScopeInput, PropertyElementMain)
  const OutputStreamsAddress := PropertyAddress(DevicePropertyStreams, DevicePropertyScopeOutput, PropertyElementMain)
  const ActualSampleRateAddress := PropertyAddress(DevicePropertyActualSampleRate, PropertyScopeGlobal, PropertyElementMain)

  /**
   * What a device can do, stated without the early returns: it is a
   * microphone when its input stream list could be sized and holds at least
   * one stream; a speaker when, in addition, its output stream list could be
   * sized and holds at least one stream.
   */
  function DeviceTypeOf(hal: HAL, objectID: AudioObjectID): Types.DeviceType
  {
    var input := hal.propertyDataSize(objectID, InputStreamsAddress);
    var output := hal.propertyDataSize(objectID, OutputStreamsAddress);
    Types.DeviceType(
      isMicrophone := input.status == NoErr && input.size >= StreamIDSize,
      isSpeaker := input.status == NoErr && output.status == NoErr && output.size >= StreamIDSize)
  }

  /**
   * `getDeviceType`. `queried` lists the addresses sized, in order: a
   * failed input query ends the function before the output scope is asked.
   * The debug-build `assertionFailure` is not modelled; release builds return.
   */
  method GetDeviceType(hal: HAL, objectID: AudioObjectID) returns (deviceType: Types.DeviceType, ghost queried: seq<PropertyAddress>)
    ensures deviceType == DeviceTypeOf(hal, objectID)
    ensures queried == if hal.propertyDataSize(objectID, InputStreamsAddress).status == NoErr
                       then [InputStreamsAddress, OutputStreamsAddress]
                       else [InputStreamsAddress]
  {
    deviceType := Types.DeviceType(isMicrophone := false, isSpeaker := false);
    var status: OSStatus := NoErr;
    var dataSize: UInt32 := 0;

    var reply := hal.propertyDataSize(objectID, InputStreamsAddress);
    status, dataSize := reply.status, reply.size;
    queried := [InputStreamsAddress];
    if status != NoErr {
      return;
    }

    var streamCount: UInt32 := 0;
    streamCount := dataSize / StreamIDSize;
    if streamCount > 0 {
      deviceType := deviceType.(isMicrophone := true);
    }

    dataSize := 0;
    reply := hal.propertyDataSize(objectID, OutputStreamsAddress);
    status, dataSize := reply.status, reply.size;
    queried := queried + [OutputStreamsAddress];
    if status != NoErr {
      return;
    }

    streamCount := dataSize / StreamIDSize;
    if streamCount > 0 {
      deviceType := deviceType.(isSpeaker := true);
    }
  }

  /** A device that cannot be sized on its input side is reported as neither microphone nor speaker. */
  lemma FailedInputQueryMeansNoDirection(hal: HAL, objectID: AudioObjectID)
    requires hal.propertyDataSize(objectID, InputStreamsAddress).status != NoErr
    ensures DeviceTypeOf(hal, objectID) == Types.DeviceType(false, false)
  {
  }

  /**
   * `getActualSampleRateForDevice`: whatever the HAL left in the variable,
   * whether or not the query succeeded (release builds only log the failure).
   */
  function GetActualSampleRateForDevice(hal: HAL, objectID: AudioObjectID): (rate: real)
    ensures rate == hal.float64(objectID, ActualSampleRateAddress).data
  {
    hal.float64(objectID, ActualSampleRateAddress).data
  }

  const NominalSampleRateAddress := PropertyAddress(DevicePropertyNominalSampleRate, PropertyScopeGlobal, PropertyElementMain)

  /** `getNominalSampleRateForDevice`: like the actual rate, the value is returned whatever the status. */
  function GetNominalSampleRateForDevice(hal: HAL, objectID: AudioObjectID): (rate: real)
    ensures rate == hal.float64(objectID, NominalSampleRateAddress).data
  {
    hal.float64(objectID, NominalSampleRateAddress).data
  }

  /** `getDevice`: a fresh snapshot of one device. */
  function GetDevice(hal: HAL, id: AudioObjectID): (device: AudioDevice)
    ensures device.id == id
    ensures device.name == DevicesFormats.DisplayName(hal, id)
    ensures device.deviceType.isMicrophone <==>
      hal.propertyDataSize(id, InputStreamsAddress).status == NoErr &&
      hal.propertyDataSize(id, InputStreamsAddress).size / StreamIDSize > 0
    ensures device.deviceType.isSpeaker <==>
      hal.propertyDataSize(id, InputStreamsAddress).status == NoErr &&
      hal.propertyDataSize(id, OutputStreamsAddress).status == NoErr &&
      hal.propertyDataSize(id, OutputStreamsAddress).size / StreamIDSize > 0
    ensures device.sampleRate == hal.float64(id, ActualSampleRateAddress).data
  {
    AudioDevice(id := id,
                name := DevicesFormats.DisplayName(hal, id),
                deviceType := DeviceTypeOf(hal, id),
                sampleRate := GetActualSampleRateForDevice(hal, id))
  }

  /** `allDevices`: one snapshot per id of `allDeviceIDs`, same order, same count. */
  function AllDevices(hal: HAL): (devices: seq<AudioDevice>)
    ensures |devices| == |DevicesFormats.AllDeviceIDs(hal)|
    ensures forall i :: 0 <= i < |devices| ==>
      devices[i] == GetDevice(hal, DevicesFormats.AllDeviceIDs(hal)[i])
  {
    var ids := DevicesFormats.AllDeviceIDs(hal);
    seq(|ids|, i requires 0 <= i < |ids| => GetDevice(hal, ids[i]))
  }

  /** The catalog lists exactly the ids the HAL reported: projecting the ids back gives `allDeviceIDs`. */
  lemma AllDevicesKeepsIds(hal: HAL)
    ensures seq(|AllDevices(hal)|, i requires 0 <= i < |AllDevices(hal)| => AllDevices(hal)[i].id)
         == DevicesFormats.AllDeviceIDs(hal)
  {
  }
}
