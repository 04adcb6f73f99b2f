/**
 * Devices+Formats.swift: the `DeviceManager` device-list queries in their
 * (name, id) form, and `FormatManager`'s canonical stream format.
 *
 * Devices.swift repeats `allDeviceIDs`, `getPropertyDataArray`,
 * `getDeviceName` and `getPropertyData` word for word; module `Devices`
 * uses the definitions here.
 */
module DevicesFormats {
  import opened Wrappers
  import opened CoreAudio
  import Interpolation

  /** `MemoryLayout<AudioObjectID>.size`. */
  const AudioObjectIDSize: nat := 4

  const DevicesAddress := PropertyAddress(HardwarePropertyDevices, PropertyScopeGlobal, PropertyElementMain)
  const NameAddress := PropertyAddress(ObjectPropertyName, PropertyScopeGlobal, PropertyElementMain)

  /** What the HAL leaves in a buffer after writing `written` into it from the front. */
  function Overwrite(buffer: seq<AudioObjectID>, written: seq<AudioObjectID>): (r: seq<AudioObjectID>)
    ensures |r| == |buffer|
    ensures forall i :: 0 <= i < |r| ==> r[i] == if i < |written| then written[i] else buffer[i]
  {
    if |written| >= |buffer| then written[..|buffer|] else written + buffer[|written|..]
  }

  /** The status and the array that `getPropertyDataArray` leaves in its `inout` argument. */
  datatype ArrayQuery = ArrayQuery(status: OSStatus, value: seq<AudioObjectID>)

  /**
   * `getPropertyDataArray` for an array of `AudioObjectID`, with no
   * qualifier. Swift passes `inout` arrays by copy-in/copy-out, so the new
   * array is part of the result. A failed size query returns its status and
   * leaves the array alone; otherwise the array becomes size / 4 copies of
   * the default, the HAL writes into it, and its status is returned.
   */
  function GetPropertyDataArray(hal: HAL, objectID: AudioObjectID, address: PropertyAddress,
                                value: seq<AudioObjectID>, defaultValue: AudioObjectID): (r: ArrayQuery)
    ensures hal.propertyDataSize(objectID, address).status != NoErr ==>
      r == ArrayQuery(hal.propertyDataSize(objectID, address).status, value)
    ensures hal.propertyDataSize(objectID, address).status == NoErr ==>
      var size := hal.propertyDataSize(objectID, address).size;
      var reply := hal.objectIDs(objectID, address, size);
      && r.status == reply.status
      && |r.value| == size / AudioObjectIDSize
      && forall i :: 0 <= i < |r.value| ==>
           r.value[i] == if i < |reply.data| then reply.data[i] else defaultValue
  {
    var sizeReply := hal.propertyDataSize(objectID, address);
    if sizeReply.status == NoErr then
      var buffer := seq(sizeReply.size / AudioObjectIDSize, _ => defaultValue);
      var reply := hal.objectIDs(objectID, address, sizeReply.size);
      ArrayQuery(reply.status, Overwrite(buffer, reply.data))
    else
      ArrayQuery(sizeReply.status, value)
  }

  /**
   * `allDeviceIDs`: the system object's device list, or nothing when the
   * query does not end in `noErr`.
   */
  function AllDeviceIDs(hal: HAL): (ids: seq<AudioObjectID>)
    ensures hal.propertyDataSize(AudioObjectSystemObject, DevicesAddress).status != NoErr ==> ids == []
    ensures var size := hal.propertyDataSize(AudioObjectSystemObject, DevicesAddress);
            var reply := hal.objectIDs(AudioObjectSystemObject, DevicesAddress, size.size);
            && (size.status == NoErr && reply.status != NoErr ==> ids == [])
            && (size.status == NoErr && reply.status == NoErr ==>
                  |ids| == size.size / AudioObjectIDSize &&
                  forall i :: 0 <= i < |ids| ==> ids[i] == if i < |reply.data| then reply.data[i] else 0)
  {
    var q := GetPropertyDataArray(hal, AudioObjectSystemObject, DevicesAddress, [], 0);
    if NoErr == q.status then q.value else []
  }

  /** `getDeviceName`: the object's name, or nil exactly when the query fails. */
  function GetDeviceName(hal: HAL, objectID: AudioObjectID): (name: Option<string>)
    ensures name.None? <==> hal.text(objectID, NameAddress).status != NoErr
    ensures name.Some? ==> name.value == hal.text(objectID, NameAddress).data
  {
    var reply := hal.text(objectID, NameAddress);
    if NoErr == reply.status then Some(reply.data) else None
  }

  /** The placeholder shown for a device whose name cannot be read: `"Unknown - \(id)"`. */
  function UnknownName(id: AudioObjectID): (name: string)
    ensures |name| > |"Unknown - "| && name[..|"Unknown - "|] == "Unknown - "
    ensures Interpolation.IsDigits(name[|"Unknown - "|..])
    ensures Interpolation.DecimalValue(name[|"Unknown - "|..]) == id
  {
    Interpolation.DecimalRoundTrip(id);
    "Unknown - " + Interpolation.DecimalString(id)
  }

  /** Placeholders of different devices differ: the id can be read back from the name. */
  lemma UnknownNameInjective(a: AudioObjectID, b: AudioObjectID)
    requires UnknownName(a) == UnknownName(b)
    ensures a == b
  {
    var prefix := "Unknown - ";
    assert UnknownName(a)[|prefix|..] == Interpolation.DecimalString(a);
    assert UnknownName(b)[|prefix|..] == Interpolation.DecimalString(b);
    Interpolation.DecimalStringInjective(a, b);
  }

  /** `getDeviceName(id) ?? "Unknown - \(id)"`. */
  function DisplayName(hal: HAL, id: AudioObjectID): (name: string)
    ensures hal.text(id, NameAddress).status == NoErr ==> name == hal.text(id, NameAddress).data
    ensures hal.text(id, NameAddress).status != NoErr ==> name == UnknownName(id)
  {
    match GetDeviceName(hal, id)
    case Some(n) => n
    case None => UnknownName(id)
  }

  /** One element of `allDevices()` in this version: a `(name, id)` pair. */
  datatype NamedDevice = NamedDevice(name: string, id: AudioObjectID)

  /** `allDevices`: one pair per device id, in the order of `allDeviceIDs`. */
  function AllDevices(hal: HAL): (devices: seq<NamedDevice>)
    ensures |devices| == |AllDeviceIDs(hal)|
    ensures forall i :: 0 <= i < |devices| ==>
      devices[i].id == AllDeviceIDs(hal)[i] && devices[i].name == DisplayName(hal, devices[i].id)
  {
    var ids := AllDeviceIDs(hal);
    seq(|ids|, i requires 0 <= i < |ids| => NamedDevice(DisplayName(hal, ids[i]), ids[i]))
  }

  /**
   * Two listed devices whose names are both placeholders are told apart by
   * their names: the placeholder carries the id.
   */
  lemma PlaceholderNamesDistinguishDevices(hal: HAL, i: nat, j: nat)
    requires i < |AllDevices(hal)| && j < |AllDevices(hal)|
    requires hal.text(AllDevices(hal)[i].id, NameAddress).status != NoErr
    requires hal.text(AllDevices(hal)[j].id, NameAddress).status != NoErr
    requires AllDevices(hal)[i].name == AllDevices(hal)[j].name
    ensures AllDevices(hal)[i].id == AllDevices(hal)[j].id
  {
    UnknownNameInjective(AllDevices(hal)[i].id, AllDevices(hal)[j].id);
  }

  /**
   * `FormatManager.makeAudioStreamBasicDescription`: mono, 32-bit float,
   * packed, non-interleaved linear PCM at `sampleRate`, built field by field
   * from the zeroed record; the two byte counts are derived from the others.
   */
  method MakeAudioStreamBasicDescription(sampleRate: real) returns (asbd: AudioStreamBasicDescription)
    ensures asbd.sampleRate == sampleRate
    ensures asbd.formatID == AudioFormatLinearPCM
    ensures asbd.formatFlags == AudioFormatFlagIsFloat | AudioFormatFlagsNativeEndian
                              | AudioFormatFlagIsPacked | AudioFormatFlagIsNonInterleaved
    ensures HasFlag(asbd.formatFlags, AudioFormatFlagIsFloat) && HasFlag(asbd.formatFlags, AudioFormatFlagIsPacked)
    ensures HasFlag(asbd.formatFlags, AudioFormatFlagIsNonInterleaved)
    ensures !HasFlag(asbd.formatFlags, AudioFormatFlagIsSignedInteger) && !HasFlag(asbd.formatFlags, AudioFormatFlagIsBigEndian)
    ensures asbd.channelsPerFrame == 1 && asbd.framesPerPacket == 1 && asbd.bitsPerChannel == 32
    ensures asbd.bytesPerFrame == asbd.bitsPerChannel / 8 * asbd.channelsPerFrame == 4
    ensures asbd.bytesPerPacket == asbd.bytesPerFrame * asbd.framesPerPacket == 4
    ensures asbd.reserved == 0
  {
    asbd := ZeroStreamDescription;
    asbd := asbd.(sampleRate := sampleRate);
    asbd := asbd.(formatID := AudioFormatLinearPCM);
    asbd := asbd.(formatFlags := AudioFormatFlagIsFloat | AudioFormatFlagsNativeEndian
                               | AudioFormatFlagIsPacked | AudioFormatFlagIsNonInterleaved);
    asbd := asbd.(channelsPerFrame := 1);
    asbd := asbd.(framesPerPacket := 1);
    asbd := asbd.(bitsPerChannel := 32);
    asbd := asbd.(bytesPerFrame := asbd.bitsPerChannel / 8 * asbd.channelsPerFrame);
    asbd := asbd.(bytesPerPacket := asbd.bytesPerFrame * asbd.framesPerPacket);
  }
}
