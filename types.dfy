/** Types.swift: the device records shared by the interface code. */
module Types {
  import opened CoreAudio

  /** `DeviceType`: whether a device can capture and whether it can render. */
  datatype DeviceType = DeviceType(isMicrophone: bool, isSpeaker: bool)

  /**
   * `AudioDevice` in its latest form, which also carries the rates the
   * device supports natively. Rates are `Float64`, kept as reals.
   */
  datatype AudioDevice = AudioDevice(
    id: AudioObjectID,
    name: string,
    deviceType: DeviceType,
    sampleRate: real,
    nominalSampleRates: seq<real>)
}
