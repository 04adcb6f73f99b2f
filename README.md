# VoiceTest core logic in Dafny

VoiceTest is a macOS test app that lists the Core Audio devices, and lets the user pick an input and an output device and their sample rates. It also defines the pieces of a recording pipeline: a builder for a HAL output unit that records from an input device, and a sizer and allocator for a TPCircularBuffer ring buffer. Nothing in the source files modelled here wires those pieces together: no code calls `makeAudioInputUnit` or `makeCircularBuffer`, `setupAudio` only sets `isSetup`, and the recording callback only prints a timestamp. Most of its code calls Core Audio. This project models the logic that sits between those calls and proves properties of it. The Core Audio HAL and the component manager are modelled as oracles: pure functions from an object and a property address to a status and some data.

The source files modelled here come from several iterations of the app and do not build together. Each file's version is modelled on its own, one Dafny module per source file:

- `CircularBuffer` (VoiceTest/CircularBuffer/CircularBuffer.swift) sizes the ring buffer from a sample rate: samples per block, bytes per block and total bytes, with 10 ms blocks and 3 blocks per buffer. It also models creating and destroying the foreign buffer handle against an allocator whose set of live handles is ghost state.
- `DevicesFormats` (VoiceTest/Devices+Formats.swift) models the device-list query, `getPropertyDataArray`, the device-name query, the `(name, id)` form of `allDevices`, and `FormatManager`'s canonical stream format.
- `Devices` (VoiceTest/Devices.swift) classifies a device as microphone and/or speaker from its stream lists. It also builds `AudioDevice` snapshots and maps them over the device list. This file repeats the query helpers of Devices+Formats.swift word for word, so it reuses the definitions in `DevicesFormats`.
- `Audio` (VoiceTest/Audio.swift) holds the `AudioManager` flags and the HAL component description. It models `makeAudioInputUnit` as a fixed sequence of fallible steps, where the first failing step throws its own error carrying the step's status.
- `ContentView` (VoiceTest/UI/ContentView.swift) covers the view's selection state and nothing visual. It models the selection-change handlers, sample-rate reconciliation, the per-direction device lists, the nominal-rate getters, the button guards and the Setup and Start/Stop actions.
- `Types` (VoiceTest/Types.swift) holds the `DeviceType` and `AudioDevice` records. `CoreAudio` holds the HAL types, the constants and the oracle. `Interpolation` models Swift's `"\(n)"` for unsigned integers. `Wrappers` holds `Option` and `Result`.

Swift-specific arithmetic is written out. `Int(Float64)` truncates toward zero, and so does Swift's `Int` division, whereas Dafny's `/` is Euclidean. So the interface's "no device" rate of -1 gives a 0-byte buffer, not -12 bytes.

Sample rates are `Float64` in the source and `real` here.

Swift passes `inout` arrays by copy-in/copy-out, so `getPropertyDataArray` returns the new array as part of its result.

Three things the audio pipeline does not do in the source files modelled here, which the model follows as written:

- There is no ring-buffer push or pop, and so no overflow or underflow reporting. The code only creates and destroys the buffer.
- `startAudio` and `stopAudio` are empty, and nothing ever sets `isRunning`.
- When a step of `makeAudioInputUnit` fails, the function throws without disposing of the unit it has already instantiated.

## Model

| member | source | states |
|---|---|---|
| `CircularBuffer.TruncateToInt` | VoiceTest/CircularBuffer/CircularBuffer.swift:15 | `Int(sampleRate)` rounds toward zero: it is non-negative and within 1 below a non-negative rate, and non-positive and within 1 above a negative rate |
| `CircularBuffer.TruncatedDiv` | VoiceTest/CircularBuffer/CircularBuffer.swift:15 | Swift's `/` by a positive divisor gives the quotient truncated toward zero, bracketed by the dividend on the side of zero |
| `CircularBuffer.CalculateSamplesPerBlock` | VoiceTest/CircularBuffer/CircularBuffer.swift:14-16 | `Int(sampleRate) * blockDurationMs / 1000` with both Swift truncations: never negative for a non-negative rate, never positive for a non-positive one |
| `CircularBuffer.CalculateBytesPerBlock` | VoiceTest/CircularBuffer/CircularBuffer.swift:18-20 | samples per block times bytes per sample: for a non-negative sample size, the sign follows the rate |
| `CircularBuffer.CalculateSize` | VoiceTest/CircularBuffer/CircularBuffer.swift:22-24 | bytes per block of 4-byte samples times 3 blocks: never negative for a non-negative rate, never positive for a non-positive one |
| `CircularBuffer.SamplesPerBlockTruncatesExactQuotient` | VoiceTest/CircularBuffer/CircularBuffer.swift:14-16 | samples per block = the exact rate x 10 ms / 1000 truncated toward zero (the two truncations never compound); for a non-negative rate this is its floor |
| `CircularBuffer.SizeIsTwelveBytesPerSample` | VoiceTest/CircularBuffer/CircularBuffer.swift:18-24 | bytes per block = 4 x samples per block; the size = 12 x samples per block, so it is always a multiple of 12 |
| `CircularBuffer.SizeAtCommonRates` | VoiceTest/CircularBuffer/CircularBuffer.swift:10-24 | 48000 Hz gives 480 samples, 1920 bytes per block and 5760 bytes; 44100 Hz gives 441 samples and 5292 bytes |
| `CircularBuffer.SizeOfSmallRatesIsZero` | VoiceTest/CircularBuffer/CircularBuffer.swift:15 | every rate strictly between -100 and 100 Hz, the -1 sentinel included, gives 0 samples and a 0-byte size |
| `CircularBuffer.SizeOfNegatedRate` | VoiceTest/CircularBuffer/CircularBuffer.swift:14-24 | negating the rate negates the size (truncation toward zero is symmetric) |
| `CircularBuffer.SizeMonotone` | VoiceTest/CircularBuffer/CircularBuffer.swift:14-24 | samples per block and the size never decrease as the rate grows, for all rates |
| `CircularBuffer.MakeCircularBuffer` | VoiceTest/CircularBuffer/CircularBuffer.swift:26-28 | given a size that fits `Int32`, one fresh handle of exactly `calculateSize` bytes, atomic, joins the live handles, and no other handle changes |
| `CircularBuffer.Destroy` | VoiceTest/CircularBuffer/CircularBuffer.swift:30-34 | nil changes nothing; a live handle, and only that handle, stops being live |
| `Interpolation.DecimalString` | VoiceTest/Devices+Formats.swift:14 | `"\(id)"` is a non-empty string of decimal digits without a leading zero |
| `Interpolation.DecimalRoundTrip` | VoiceTest/Devices+Formats.swift:14 | reading the rendered digits back gives the number |
| `DevicesFormats.GetPropertyDataArray` | VoiceTest/Devices+Formats.swift:42-72 | a failed size query returns its status and leaves the array as it was; otherwise the array has size / 4 entries, each the HAL's value where it wrote one and the default elsewhere, and the data query's status is returned |
| `DevicesFormats.AllDeviceIDs` | VoiceTest/Devices+Formats.swift:17-29 | empty when either the size or the data query fails; otherwise size / 4 ids as the HAL wrote them, zero-padded |
| `DevicesFormats.GetDeviceName` | VoiceTest/Devices+Formats.swift:74-86 | nil exactly when the name query's status is not `noErr`, otherwise the HAL's name |
| `DevicesFormats.UnknownName` | VoiceTest/Devices+Formats.swift:14 | the placeholder is `"Unknown - "` followed by the id's decimal digits, which read back as the id |
| `DevicesFormats.DisplayName` | VoiceTest/Devices+Formats.swift:14 | the HAL's name when the query succeeds, `"Unknown - <id>"` otherwise |
| `DevicesFormats.UnknownNameInjective` | VoiceTest/Devices+Formats.swift:14 | two devices with the same placeholder name have the same id |
| `DevicesFormats.AllDevices` | VoiceTest/Devices+Formats.swift:13-15 | one `(name, id)` pair per device id, in the same order, each named by `DisplayName` |
| `DevicesFormats.PlaceholderNamesDistinguishDevices` | VoiceTest/Devices+Formats.swift:13-15 | two listed devices whose names could not be read and that show the same name are the same id |
| `DevicesFormats.MakeAudioStreamBasicDescription` | VoiceTest/Devices+Formats.swift:98-116 | the rate is passed through unchanged; linear PCM; the flags are exactly float, native-endian, packed and non-interleaved (so neither signed-integer nor big-endian); mono, 1 frame per packet, 32 bits; bytes per frame = bits / 8 x channels = 4 and bytes per packet = bytes per frame x frames per packet = 4 |
| `Devices.GetDeviceType` | VoiceTest/Devices.swift:136-189 | the result is `DeviceTypeOf`: microphone iff the input stream list was sized and holds a stream; speaker iff the input query succeeded and the output list was sized and holds a stream; the output scope is queried only after a successful input query |
| `Devices.FailedInputQueryMeansNoDirection` | VoiceTest/Devices.swift:153-156 | a failed input-scope query gives neither microphone nor speaker |
| `Devices.GetActualSampleRateForDevice` | VoiceTest/Devices.swift:41-53 | the value the HAL left for the device's global, main-element actual-rate property, returned whatever the query's status (release builds only assert on failure) |
| `Devices.GetNominalSampleRateForDevice` | VoiceTest/Devices.swift:55-67 | the same for the nominal-rate property; nothing in the source files modelled here calls it |
| `Devices.GetDevice` | VoiceTest/Devices.swift:17-23 | the snapshot carries the given id, the name or its placeholder, microphone/speaker iff stream count (size / 4) > 0 in each scope as above, and the actual-rate reply's value |
| `Devices.AllDevices` | VoiceTest/Devices.swift:13-15 | one snapshot per id of `allDeviceIDs`, same count and order |
| `Devices.AllDevicesKeepsIds` | VoiceTest/Devices.swift:13-15 | the ids of the snapshots are exactly `allDeviceIDs` |
| `Audio.AudioManager.constructor` | VoiceTest/Audio.swift:11-13 | a new manager is neither set up nor running |
| `Audio.AudioManager.SetupAudio` | VoiceTest/Audio.swift:15-23 | `isSetup` becomes true; `isRunning` is unchanged |
| `Audio.AudioManager.ToggleAudio` | VoiceTest/Audio.swift:25-35 | before set-up nothing happens; after set-up it calls `stopAudio` when running and `startAudio` otherwise; neither flag changes |
| `Audio.AudioManager.StartAudio` | VoiceTest/Audio.swift:37-39 | records the call; the flags are unchanged |
| `Audio.AudioManager.StopAudio` | VoiceTest/Audio.swift:41-43 | records the call; the flags are unchanged |
| `Audio.MakeAudioComponentDescriptionHALOutput` | VoiceTest/Audio.swift:66-76 | type output (`auou`), subtype HAL output (`ahal`), manufacturer Apple (`appl`), flags and mask 0 |
| `Audio.StepErrorIdentifiesStep` | VoiceTest/Audio.swift:53-64 | each property-write error names its step and carries the status it was thrown with |
| `Audio.FirstRejected` | VoiceTest/Audio.swift:98-152 | the index of the first rejected write: every earlier write returned `noErr` and this one did not, or all writes were accepted |
| `Audio.MakeAudioInputUnit` | VoiceTest/Audio.swift:78-155 | a missing component, a failed instantiation (with its status) and a nil unit throw before any write; then the five writes go in order (enable input IO on bus 1, disable output IO on bus 0, set the current device, set the stream format on the output scope of bus 1, install the recording callback with the context); the first non-`noErr` write throws its own error with that status and no later write is made; a unit is returned iff every step succeeded |
| `ContentView.WithDirection` | VoiceTest/UI/ContentView.swift:116-122 | the filtered list is no longer than the listing and holds only devices serving the direction |
| `ContentView.WithDirectionCounts` | VoiceTest/UI/ContentView.swift:116-122 | a device serving the direction is kept as many times as it is listed; any other device is dropped |
| `ContentView.WithDirectionAppend` | VoiceTest/UI/ContentView.swift:116-122 | filtering distributes over concatenation, so listing order is kept |
| `ContentView.WithDirectionIdempotent` | VoiceTest/UI/ContentView.swift:116-122 | filtering twice is filtering once |
| `ContentView.InputDevicesAreTheMicrophones` | VoiceTest/UI/ContentView.swift:116-118 | a device is offered as input iff it is listed and is a microphone |
| `ContentView.OutputDevicesAreTheSpeakers` | VoiceTest/UI/ContentView.swift:120-122 | a device is offered as output iff it is listed and is a speaker |
| `ContentView.ReconciliationProperties` | VoiceTest/UI/ContentView.swift:104-111 | the reconciled output rate is the input rate when a selected output device lists it, the unchanged output rate otherwise, and reconciling again changes nothing |
| `ContentView.NoNominalRatesNoSuggestion` | VoiceTest/UI/ContentView.swift:104-111 | an output device with no nominal rates never changes the output rate |
| `ContentView.ReconcileToSharedRate` | VoiceTest/UI/ContentView.swift:104-111 | input 48000 Hz with an output at 44100 Hz supporting {44100, 48000} moves the output to 48000 Hz; an unsupported 96000 Hz input leaves it at 44100 Hz |
| `ContentView.ContentView.constructor` | VoiceTest/UI/ContentView.swift:13-19 | the view starts from a fresh manager, neither set up nor running; no selection on either side; both rates start at 24000 |
| `ContentView.ContentView.RunSampleRateReconciliation` | VoiceTest/UI/ContentView.swift:104-111 | the output rate becomes the reconciled rate; the input rate is never modified |
| `ContentView.ContentView.SelectInputDevice` | VoiceTest/UI/ContentView.swift:29-36 | the input selection becomes the new value; the handler runs only if the value changed, otherwise both rates stay as they were; clearing the input selection sets the input rate to -1 and skips reconciliation; choosing a device sets the input rate to the device's current rate and then reconciles the output rate |
| `ContentView.ContentView.SelectOutputDevice` | VoiceTest/UI/ContentView.swift:52-59 | the output selection becomes the new value; the handler runs only if the value changed, otherwise the output rate stays as it was; clearing the output selection sets the output rate to -1; choosing a device sets it to the device's current rate, then to the input rate if the device lists it; the input rate is untouched |
| `ContentView.ContentView.InputDevices` | VoiceTest/UI/ContentView.swift:116-118 | no more devices than are listed, and every one a microphone (`InputDevicesAreTheMicrophones` gives the converse) |
| `ContentView.ContentView.OutputDevices` | VoiceTest/UI/ContentView.swift:120-122 | no more devices than are listed, and every one a speaker (`OutputDevicesAreTheSpeakers` gives the converse) |
| `ContentView.ContentView.InputDeviceNominalRates` | VoiceTest/UI/ContentView.swift:124-127 | empty without an input selection, otherwise the selected device's nominal rates |
| `ContentView.ContentView.OutputDeviceNominalRates` | VoiceTest/UI/ContentView.swift:129-132 | empty without an output selection, otherwise the selected device's nominal rates |
| `ContentView.ContentView.SetupDisabled` | VoiceTest/UI/ContentView.swift:90 | the Setup button is disabled when either selection is missing or audio is running; that `Setup` produces a request whenever the button is enabled is a consequence of `Setup`'s iff |
| `ContentView.ContentView.StartStopDisabled` | VoiceTest/UI/ContentView.swift:95 | the Start/Stop button is disabled until the manager is set up |
| `ContentView.ContentView.StartStopTitle` | VoiceTest/UI/ContentView.swift:92 | the title is "Stop" exactly while audio runs and "Start" exactly while it does not |
| `ContentView.ContentView.StartStop` | VoiceTest/UI/ContentView.swift:92-95 | when disabled a press records nothing; when enabled it records exactly one transport call, `stopAudio` when the title reads "Stop" and `startAudio` when it reads "Start"; neither flag changes |
| `ContentView.ContentView.Setup` | VoiceTest/UI/ContentView.swift:71-89 | no request unless both devices are selected (and always one when the button is enabled); otherwise both device snapshots, each with its sample rate replaced by the selected rate |

## Left out

- The ring buffer's contents are not modelled. CircularBufferBridge.cpp only creates and destroys a TPCircularBuffer, and TPCircularBuffer is not part of this model. No push, pop, overflow or underflow logic appears in the source files modelled here.
- AudioCallbacks.cpp is left out. The recording callback only prints a timestamp and returns `noErr`, and the playout callback is declared but never defined.
- Starting, stopping and tearing down audio units are not modelled, because the code has none: `startAudio` and `stopAudio` are empty. `AudioManager`'s `isRunning` therefore never becomes true.
- The Core Audio calls themselves are not modelled. `AudioObjectGetPropertyDataSize`, `AudioObjectGetPropertyData` (`getPropertyDataSize`, `getPropertyData`), `AudioComponentFindNext`, `AudioComponentInstanceNew` and `AudioUnitSetProperty` are oracle fields. Each call is answered from a fixed function, so hardware that changes between two queries is not modelled.
- `getPropertyDataArray` is modelled only for arrays of `AudioObjectID` (4 bytes each) with no qualifier. That is its only use in the source files modelled here.
- The four copies of `size(of:)` are not modelled as a function. The byte sizes they give on a 64-bit Mac are written as constants: 4 for a `UInt32`, 40 for a stream description and 16 for a callback struct.
- Floating point is modelled only as far as `Int(Float64)`. NaN, infinities and the trap on out-of-range conversion are not modelled. Rates are compared as reals.
- CircularBuffer.CalculateSamplesPerBlock does not model the overflow trap of `Int(sampleRate) * blockDurationMs` (VoiceTest/CircularBuffer/CircularBuffer.swift:15), which fires for rates of magnitude at least `Int.max / 10`, about 9.2e17. Integers are unbounded here, so `CalculateSamplesPerBlock`, `CalculateBytesPerBlock`, `CalculateSize` and `SizeMonotone` hold for all rates, beyond those at which the Swift code traps.
- CircularBuffer.MakeCircularBuffer models the `Int32(...)` trap as a precondition. The buffer size must fit in 32 bits, which also keeps `Int(sampleRate) * 10` inside `Int`. What `CircularBufferCreate` does with a zero or negative length is not modelled.
- The debug-only `assertionFailure` traps are not modelled. The model follows release builds, which return or continue.
- `kAudioFormatFlagsNativeEndian` is taken as 0, its value on the little-endian Macs the app runs on.
- The SwiftUI view bodies are not modelled: lists, pickers, bindings, `print` output and the microphone permission request.
- The Picker's direct writes to the selected rates are not modelled. A picked rate is simply a new value of that field.
- `listDevices` is not modelled. It fills `listedDevices` from an `allDevices` version that returns nominal rates, and that version is not among the modelled source files, so `listedDevices` and `DeviceManager.getDevice` are inputs of the view model.
- The `toggleAudio` in VoiceTest/UI/ContentView.swift:148-158 is the same as Audio.swift's. It is modelled once, as `Audio.AudioManager.ToggleAudio`.
- ContentView.ContentView.StartStop takes the view's transport methods to be Audio.swift's. The view's `AudioManager` is a different version (it has `listedDevices` and `setupAudio(inputDevice:outputDevice:)`), and its `startAudio` and `stopAudio` are not among the modelled source files. They are taken to be Audio.swift's empty ones. So "neither flag changes" holds only under that assumption, and in the model `isRunning` never becomes true: the "Stop" title and the `isRunning` part of `SetupDisabled` are unreachable.
- The `Device and Format Helpers/Formats.swift` copy of `FormatManager` is the same as Devices+Formats.swift's. It is modelled once.
- The `setupAudio(inputDevice:outputDevice:)` that the view calls is not among the modelled source files. `ContentView.ContentView.Setup` returns the two devices it would receive.
- `AudioDevice`'s hash is not modelled. It combines only the id and the name.
- `AudioUnitOutputCreationError` and `CustomAudioPipelineError` are not modelled. They are declared in Types.swift but never thrown by the modelled code.
