/**
 * The slice of Apple's Core Audio HAL that the app talks to, reduced to
 * what its logic depends on: status codes, object identifiers, property
 * addresses, four-character codes, the stream-format record, and the
 * HAL's property queries seen as an oracle that answers a status and some
 * data for an (object, address) pair.
 */
module CoreAudio {
  /** Swift's `UInt32`. */
  type UInt32 = x: int | 0 <= x < 0x1_0000_0000

  /** `OSStatus` (a 32-bit signed code); `NoErr` is success. */
  type OSStatus = int
  const NoErr: OSStatus := 0

  /** `AudioObjectID`: an opaque 32-bit handle naming a HAL object. */
  type AudioObjectID = UInt32
  const AudioObjectSystemObject: AudioObjectID := 1

  /** A four-character code, big-endian, as Core Audio spells its constants. */
  function FourCC(code: string): (r: UInt32)
    requires |code| == 4 && forall i :: 0 <= i < 4 ==> code[i] as int < 256
    ensures r / 0x100_0000 == code[0] as int
  {
    ((code[0] as int * 0x100 + code[1] as int) * 0x100 + code[2] as int) * 0x100 + code[3] as int
  }

  /** `AudioObjectPropertyAddress`. */
  datatype PropertyAddress = PropertyAddress(selector: UInt32, scope: UInt32, element: UInt32)

  const PropertyScopeGlobal: UInt32 := FourCC("glob")
  const DevicePropertyScopeInput: UInt32 := FourCC("inpt")
  const DevicePropertyScopeOutput: UInt32 := FourCC("outp")
  const PropertyElementMain: UInt32 := 0

  const HardwarePropertyDevices: UInt32 := FourCC("dev#")
  const ObjectPropertyName: UInt32 := FourCC("lnam")
  const DevicePropertyStreams: UInt32 := FourCC("stm#")
  const DevicePropertyActualSampleRate: UInt32 := FourCC("asrt")
  const DevicePropertyNominalSampleRate: UInt32 := FourCC("nsrt")

  /** The answer to `AudioObjectGetPropertyDataSize`: a status and a byte count. */
  datatype SizeReply = SizeReply(status: OSStatus, size: UInt32)

  /** The answer to `AudioObjectGetPropertyData`: a status and what the HAL wrote. */
  datatype DataReply<T> = DataReply(status: OSStatus, data: T)

  /**
   * The HAL as an oracle. `objectIDs` receives the byte size of the
   * caller's buffer and answers the identifiers it writes there, front first;
   * `text` and `float64` answer a `CFString` and a `Float64` property.
   */
  datatype HAL = HAL(
    propertyDataSize: (AudioObjectID, PropertyAddress) -> SizeReply,
    objectIDs: (AudioObjectID, PropertyAddress, UInt32) -> DataReply<seq<AudioObjectID>>,
    text: (AudioObjectID, PropertyAddress) -> DataReply<string>,
    float64: (AudioObjectID, PropertyAddress) -> DataReply<real>)

  /** `kAudioFormatLinearPCM`. */
  const AudioFormatLinearPCM: UInt32 := FourCC("lpcm")

  /** The `AudioFormatFlags` bits used by the app. */
  const AudioFormatFlagIsFloat: bv32 := 1
  const AudioFormatFlagIsBigEndian: bv32 := 2
  const AudioFormatFlagIsSignedInteger: bv32 := 4
  const AudioFormatFlagIsPacked: bv32 := 8
  const AudioFormatFlagIsNonInterleaved: bv32 := 32
  /** Native endianness on the little-endian Macs the app targets: no bit set. */
  const AudioFormatFlagsNativeEndian: bv32 := 0

  predicate HasFlag(flags: bv32, flag: bv32) { flags & flag == flag }

  /** `AudioStreamBasicDescription`; the sample rate is a `Float64`, kept as a real. */
  datatype AudioStreamBasicDescription = AudioStreamBasicDescription(
    sampleRate: real,
    formatID: UInt32,
    formatFlags: bv32,
    bytesPerPacket: UInt32,
    framesPerPacket: UInt32,
    bytesPerFrame: UInt32,
    channelsPerFrame: UInt32,
    bitsPerChannel: UInt32,
    reserved: UInt32)

  /** `AudioStreamBasicDescription()`: every field zero. */
  const ZeroStreamDescription := AudioStreamBasicDescription(0.0, 0, 0, 0, 0, 0, 0, 0, 0)
}
