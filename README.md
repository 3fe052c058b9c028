# dtmf.js in Dafny

dtmf.js is a browser DTMF player. It synthesises one short WAV clip per
telephone key. Each clip is a low row tone plus a high column tone, with
silence around them. It then binds every clip's `<audio>` element to an
output device whose label matches a mask (by default a virtual "cable"
device), and plays a key on demand. This project models the parts of that
file that are not browser plumbing, and proves what they promise:

- **WAV encoder** (`module Wav`, `wav.dfy`). The `DataView` is an
  `array<uint8>`. `EncodeWav` writes the 44-byte header and the 16-bit
  little-endian PCM payload through the same `setUint8`/`setUint16`/
  `setInt16`/`setUint32`/`writeString`/`floatTo16BitPCM` steps as the
  source. It is proved to produce exactly `WavBytes`. Lemmas read every
  header field and every sample back out of `WavBytes`. The header values
  are kept as the encoder writes them, not as the RIFF WAVE format would
  have them:
  - the RIFF size field is 32 + data bytes;
  - the byte rate is always sampleRate*4;
  - the block align is always 4.
- **Sample buffers** (`module Buffers`, `buffers.dfy`):
  - `generateSilence`: the sample count follows `new Float32Array`'s
    ToIndex, and ToIndex's RangeError is an error result;
  - `mergeBuffers`: concatenation;
  - `mixBuffers`: the per-sample mean;
  - the fade envelope of `generateTone`.
- **Device selection** (`module Devices`, `devices.dfy`). Keep the
  `audiooutput` devices, keep those whose lower-cased label contains the
  mask (the mask itself is not lower-cased), and take the last one. When
  none is left this is an error, unless the default device is allowed.
- **Tone table** (`module Tones`, `tones.dfy`): the twelve keys with their
  ITU-T Q.23 row and column frequencies. `KeyOrder` is the order in which
  `for (let k in Tones)` visits the keys. Section 10.1.11.1 of ECMA-262
  (OrdinaryOwnPropertyKeys) puts the array-index keys first, ascending, and
  the other keys after them in creation order.
- **Configuration defaults** (`module Config`, `config.dfy`). This includes
  the quirk that the secondary tone's duration and gain default on the
  *primary* option.
- **Player** (`module Player`, `player.dfy`). Class `Dtmf` holds the
  factory's closure state:
  - the `Tones` map that `buildTones` rewrites in place;
  - the `pList` stack that `exec` drains one `setSinkId` at a time;
  - the init promise's state, the selected device, the keys whose element
    has been set up, and the sink id bound to each element.

  The browser's asynchronous answers arrive as method calls:
  - `EnumerationFailed`: `getUserMedia` or `enumerateDevices` rejected;
  - `OnEnumDevices`: the device list arrived;
  - `OnSinkIdSettled(ok, err)`: the pending `setSinkId` succeeded or failed.

  `Valid()` is the lifecycle invariant. The constructor establishes it, and
  `Init`, `EnumerationFailed`, `OnEnumDevices`, `BuildTones`,
  `OnSinkIdSettled` and `Play` keep it. `BuildEntries`, `Pop` and `Exec`
  are internal steps of `BuildTones` and `OnSinkIdSettled`. They state
  their effect on the fields without it, because `Valid()` does not hold
  part-way through those callers. The invariant says:
  - while the bind job for key n of the for-in order is pending, the stack
    holds the jobs for keys 0 to n-1;
  - exactly the keys after n are set up, and each of them is bound to the
    device;
  - the promise resolves only once every key is set up.

Samples are `real`, so `Float32Array` rounding is not part of the model.
The JavaScript conversions `ToUint16`, `ToUint32` and `ToInt16` are
truncation toward zero followed by reduction modulo 2^16 or 2^32.

## Model

| member | source | states |
|---|---|---|
| Wav.Trunc | dtmf.js:284 | the integer part toward zero that `setInt16` takes of its argument, bounded on both sides |
| Wav.ToUint16 | dtmf.js:284 | `setUint16`/`setInt16`'s wrap modulo 2^16: identity on 0..0xFFFF, +2^16 on -0x8000..-1 |
| Wav.ToUint32 | dtmf.js:301 | `setUint32`'s wrap modulo 2^32: below 2^32, identity on 0..2^32-1 |
| Wav.LE16ReadBack | dtmf.js:309 | a little-endian 16-bit write reads back as the value written |
| Wav.LE32ReadBack | dtmf.js:301 | a little-endian 32-bit write reads back as the value written |
| Wav.Int16ReadBack | dtmf.js:284 | an int16 in range, written as two's complement, reads back signed as itself |
| Wav.CharBytes | dtmf.js:288-292 | one byte per character, the character code modulo 256 (`setUint8` of `charCodeAt`) |
| Wav.Clamp | dtmf.js:283 | `Math.max(-1, Math.min(1, x))`: in [-1, 1], identity inside, saturating outside |
| Wav.Pcm16 | dtmf.js:283-284 | the stored sample code lies in [-32768, 32767] and never has the opposite sign to the sample |
| Wav.Pcm16Saturates | dtmf.js:283-284 | the code is 0 for silence and saturates at 0x7FFF and -0x8000 for samples beyond full scale |
| Wav.PcmBytes | dtmf.js:281-286 | the payload is two bytes per sample |
| Wav.PcmBytesAt | dtmf.js:281-286 | bytes 2i and 2i+1 of the payload encode sample i |
| Wav.WavBytes | dtmf.js:294-328 | the encoded file is 44 + 2N bytes for N samples |
| Wav.RiffHeaderFields | dtmf.js:298-303 | the RIFF chunk reads back as "RIFF", 32 + 2N (mod 2^32), "WAVE" |
| Wav.FmtChunkFields | dtmf.js:304-319 | the fmt chunk reads back as "fmt ", 16, 1, the channel count, sampleRate, sampleRate*4, 4, 16 |
| Wav.WavLayout | dtmf.js:294-323 | every header field of the file reads back at its offset 0 to 40, with the encoder's own size, byte rate and block align |
| Wav.WavSampleAt | dtmf.js:325 | sample i reads back as an int16 at offset 44 + 2i equal to its PCM code |
| Wav.Interleaved | dtmf.js:269-279 | interleaving two channels of n samples gives 2n samples |
| Wav.InterleavedAt | dtmf.js:269-279 | position 2i holds L[i] and position 2i+1 holds R[i] |
| Wav.SetUint8 | dtmf.js:290 | `setUint8` writes one byte (value mod 256) and nothing else |
| Wav.SetUint16 | dtmf.js:309 | `setUint16(off, v, true)` writes v mod 2^16 little-endian at off and nothing else |
| Wav.SetInt16 | dtmf.js:284 | `setInt16(off, v, true)` writes the two's complement of v little-endian at off and nothing else |
| Wav.SetUint32 | dtmf.js:301 | `setUint32(off, v, true)` writes v mod 2^32 little-endian at off and nothing else |
| Wav.WriteString | dtmf.js:288-292 | the loop writes the string's bytes at offset and leaves the rest of the view untouched |
| Wav.FloatTo16BitPCM | dtmf.js:281-286 | the loop writes the PCM bytes of every sample from offset on, and nothing before or after |
| Wav.WriteRiffHeader | dtmf.js:298-303 | bytes 0-11 become the RIFF chunk header |
| Wav.WriteFmtChunk | dtmf.js:304-319 | bytes 12-35 become the fmt chunk, bytes 0-11 are kept |
| Wav.WriteFmtFields | dtmf.js:310-319 | bytes 22-35 become the channel count, sample rate, byte rate, block align and bits per sample as written; bytes 0-21 and 36 on are kept |
| Wav.WriteDataHeader | dtmf.js:320-323 | bytes 36-43 become the data chunk header, bytes 0-35 are kept |
| Wav.EncodeWav | dtmf.js:294-328 | `encodeWAV` returns a fresh view whose bytes are exactly WavBytes |
| Wav.Interleave | dtmf.js:269-279 | the index/inputIndex loop returns a fresh array equal to Interleaved(L, R) |
| Wav.ChannelSamples | dtmf.js:332-336 | mono encodes bufferL itself; stereo puts L[i] at 2i and R[i] at 2i+1 |
| Wav.EncodeChannels | dtmf.js:330-336 | `WAV` encodes bufferL as mono when bufferR is undefined, else the interleaved pair as stereo |
| Wav.ChannelCountField | dtmf.js:332-336 | the channel field reads 1 exactly when bufferR is undefined, else 2; the file holds 2 bytes per sample per channel |
| Buffers.SampleCount | dtmf.js:70-71 | `new Float32Array(sampleRate*duration)`: the count truncated toward zero, and ToIndex's RangeError exactly outside (-1, 2^53) |
| Buffers.GenerateSilence | dtmf.js:69-74 | `generateSilence` fails exactly when the length is out of range, else returns a fresh all-zero buffer of that length |
| Buffers.TotalLength | dtmf.js:118 | the `reduce` total leaves room for every buffer: no buffer is longer than it |
| Buffers.Concat | dtmf.js:118 | the merged length is the sum of the input lengths |
| Buffers.TotalLengthPrefix | dtmf.js:118 | the lengths of the first i buffers never exceed the total |
| Buffers.ConcatAt | dtmf.js:117-128 | sample j of buffer i sits at the sum of the earlier lengths plus j |
| Buffers.MergeBuffers | dtmf.js:117-128 | the `ofs` loop returns a fresh array equal to the concatenation of the buffers in order |
| Buffers.Mean | dtmf.js:149 | the mixed sample of a single buffer is that buffer's own sample |
| Buffers.Mixed | dtmf.js:130-153 | the mix has the first buffer's length |
| Buffers.ColumnSumBounds | dtmf.js:142-147 | the per-sample sum of n buffers lies between n*lo and n*hi when every sample does between lo and hi |
| Buffers.MeanBounds | dtmf.js:149-151 | when every buffer's sample j lies in [lo, hi], so does the mixed sample j: mixing never leaves the inputs' range |
| Buffers.MeanOfEqual | dtmf.js:142-151 | mixing buffers that agree at a sample gives that sample back |
| Buffers.MeanOfTwo | dtmf.js:130-153 | mixing the two tones of a key gives their average |
| Buffers.MixBuffers | dtmf.js:130-153 | `mixBuffers` returns null exactly for no buffers, else a fresh array whose sample j is the mean of sample j over all buffers |
| Buffers.Ramp | dtmf.js:106-109 | from the start of its fade window on, a ramp lies in [0, 1], and it has reached 1 at the end of the window |
| Buffers.Envelope | dtmf.js:105-111 | for 0 <= t <= duration the fade gain `vFadeIn * vFadeOut` lies in [0, 1] |
| Buffers.EnvelopeZeroDuration | dtmf.js:76-109 | with duration 0 the tone still runs 5 s, and at 5 s the gain with 5 ms fades is -1000: it inverts and amplifies |
| Buffers.EnvelopeFlat | dtmf.js:105-111 | between the fade windows, or with fades shorter than eps, the gain is exactly 1 |
| Devices.ToLower | dtmf.js:58 | `toLowerCase` keeps the length, lowers each ASCII letter, and leaves no ASCII capital |
| Devices.ToLowerIdempotent | dtmf.js:58 | lower-casing an already lower-cased label changes nothing |
| Devices.IndexOfFrom | dtmf.js:58 | `indexOf` yields -1 or a position from `from` on at which the whole pattern fits |
| Devices.IndexOfFromSpec | dtmf.js:58 | `indexOf` returns the first occurrence at or after `from`, or -1 exactly when there is none |
| Devices.LabelMatchesIff | dtmf.js:58 | the mask test holds exactly when the mask occurs somewhere in the lower-cased label |
| Devices.FilterSound | dtmf.js:57-58 | a `filter` keeps only elements of its input that pass its test |
| Devices.Outputs | dtmf.js:57 | the first `filter` keeps only devices of the list whose kind is "audiooutput" |
| Devices.Matching | dtmf.js:58 | the second `filter` keeps only devices of the list whose lower-cased label contains the mask |
| Devices.FilterEmpty | dtmf.js:57-58 | a `filter` yields nothing exactly when no element passes its test |
| Devices.FilterLast | dtmf.js:57-58 | the last survivor of a non-empty `filter` is the last passing element of the input |
| Devices.FilterFilter | dtmf.js:57-58 | the two chained filters (audio output, then label match) keep exactly the devices that pass both tests, in order |
| Devices.CandidatesLast | dtmf.js:57-58 | no survivors exactly when no device qualifies; otherwise `pop()` yields the last qualifying device in enumeration order |
| Devices.NotFoundMessage | dtmf.js:61 | the thrown message is the fixed text "output device not found for mask: " followed by the mask, which can be read back from it |
| Devices.SelectDevice | dtmf.js:53-67 | an error with "output device not found for mask: " exactly when nothing qualifies and the default is not allowed; `undefined` exactly when nothing qualifies and it is; otherwise the last qualifying device |
| Devices.LastCandidateUnique | dtmf.js:58 | the selected device is determined by the list |
| Devices.SelectCableOutput | dtmf.js:56-58 | of "Speakers", "CABLE Input", "Cable Output", mask "cable" selects "Cable Output" |
| Tones.DigitKey | dtmf.js:158 | a one-digit key is an array index whose value is its digit |
| Tones.KeyOrderIndices | dtmf.js:158 | the first ten keys of the for-in order are the array indices 0 to 9; "*" and "#" are not |
| Tones.LiteralKeysValue | dtmf.js:23-36 | the properties are created in the order 1-9, *, 0, # |
| Tones.OtherKeysKept | dtmf.js:158 | "*" and "#" keep their creation order in the for-in order |
| Tones.KeyOrderPermutation | dtmf.js:158 | the for-in order visits each property exactly once |
| Tones.IndicesFirstAscending | dtmf.js:158 | in the for-in order the array indices come first, in ascending order |
| Tones.ToneKeyOrder | dtmf.js:158 | "0".."9","*","#" is the for-in order of the literal under OrdinaryOwnPropertyKeys |
| Tones.TableKeysLiteral | dtmf.js:23-36 | a key is in the table exactly when it is a property name of the literal |
| Tones.TableKeys | dtmf.js:23-36 | the table has exactly the twelve keys of the for-in order: no A to D |
| Tones.LiteralEntry | dtmf.js:23-36 | each property of the literal is a table entry with its pair |
| Tones.KeypadEntry | dtmf.js:23-36 | the key at row r and column c has row r's and column c's frequencies |
| Tones.TableFollowsKeypad | dtmf.js:23-36 | every key's pair is its keypad row's frequency (697/770/852/941) and column's (1209/1336/1477) |
| Tones.KeyOrderDistinct | dtmf.js:158 | no key is visited twice |
| Config.Configure | dtmf.js:10-21 | the mask is never empty and the id never 0; a non-empty mask and non-zero id are kept; the secondary duration and gain copy their own options whenever the primary is given |
| Config.Defaults | dtmf.js:10-21 | with no options: no default device, mask "cable", 0.2/0.1 s, gains 1.0/0.9, 0.1 s silence, 5 ms fades, id 1 |
| Config.FalsyMaskAndId | dtmf.js:13-21 | an empty mask and id 0 fall back to "cable" and 1 |
| Config.SecondaryFollowsPrimary | dtmf.js:15-17 | a secondary option given alone is ignored; with the primary given and the secondary not, the secondary is undefined |
| Player.PartlyBuilt | dtmf.js:158-169 | part-way through the loop the table still has exactly the twelve keys |
| Player.PartlyBuiltStart | dtmf.js:158 | the loop starts from the bare table |
| Player.PartlyBuiltEnd | dtmf.js:158-169 | the loop ends with every entry built |
| Player.PartlyBuiltStep | dtmf.js:159-163 | each iteration reads a still-bare entry and replaces exactly that entry |
| Player.JobsStep | dtmf.js:164-165 | iteration i appends the job of the i-th key to the pushed jobs |
| Player.KeysOfStep | dtmf.js:166-167 | iteration i adds the i-th key to the set-up keys |
| Player.KeysAfterStep | dtmf.js:180-181 | binding key n completes the set of keys after n-1 |
| Player.KeysAfterEnds | dtmf.js:171-190 | all keys are after position -1, none after the last |
| Player.AllKeysVisited | dtmf.js:158-169 | the loop visits exactly the table's keys |
| Player.BindOrder | dtmf.js:176-190 | popping the pushed jobs binds "#", "*", "9", ..., "0": reverse for-in order |
| Player.BindNext | dtmf.js:178-182 | a successful bind with jobs left adds the key to the set-up and bound keys and pops the job one position earlier |
| Player.BindLast | dtmf.js:176-182 | a successful bind of the last job leaves every key set up and bound: the resolved state |
| Player.BuildBinding | dtmf.js:158-190 | with a device and no default, building ends waiting on the last key of the for-in order with the other eleven jobs stacked and nothing set up |
| Player.BuildResolved | dtmf.js:166-174 | without binding, every key is set up and the promise resolves with nothing bound |
| Player.BindingSetUpBound | dtmf.js:179-180 | while binding, the set-up keys are exactly the keys already bound, all to the device, and the pending key is not set up |
| Player.Dtmf.constructor | dtmf.js:8-51 | a new player has the configured settings, the bare table, no device, nothing set up, bound or played |
| Player.Dtmf.Init | dtmf.js:230-242 | the first call starts enumeration and returns the promise; every later call returns `undefined` and changes nothing |
| Player.Dtmf.EnumerationFailed | dtmf.js:236-239 | a failed `getUserMedia`/`enumerateDevices` rejects with "init failed:" and the error |
| Player.Dtmf.OnEnumDevices | dtmf.js:53-67 | a selection error rejects with "init failed:" and the message and changes nothing else; otherwise the device is stored and the tones are built for its id |
| Player.Dtmf.BuildTones | dtmf.js:155-191 | every entry is built; with a device and no default, binding starts at the last key with the other eleven jobs stacked; otherwise every key is set up and the promise resolves |
| Player.Dtmf.BuildEntries | dtmf.js:158-169 | the for-in loop builds every entry and pushes all twelve jobs in for-in order, or sets up every key at once |
| Player.Dtmf.Pop | dtmf.js:181-190 | `pList.pop()`: the last job and the stack without it, or `undefined` on an empty stack |
| Player.Dtmf.Exec | dtmf.js:176-188 | `exec` with no job resolves; with a job it waits on that job's `setSinkId` |
| Player.Dtmf.OnSinkIdSettled | dtmf.js:178-187 | success binds and sets up the job's key, then binds the next popped job or resolves on an empty stack; failure rejects with "setSinkId failed (key): err", binds nothing more, and undoes nothing |
| Player.Dtmf.Play | dtmf.js:249-263 | true, with exactly one play, exactly when the key is in the table and its entry has an element: never before the tones are built, and for every table key after |
| Player.NewDtmf | dtmf.js:43-46 | the factory returns null exactly when `setSinkId` is missing, else a fresh player that has not started |

## Left out

- `generateTone` is left out: the `Math.sin` synthesis and Float32 rounding are floating-point numerics. Only its fade envelope is modelled, over reals (`Buffers.Envelope`).
- `createAudioElement` is left out. It builds the clip from `generateTone`, which is not modelled. It also calls `document.createElement`, `Blob` and `URL.createObjectURL`, which are DOM calls. Its element's `setup()` becomes the key joining `setUp`.
- The `AudioContext` and its sample rate are left out, because they are browser objects.
- `getUserMedia` and `enumerateDevices` are left out, and so is the Promise plumbing around them: these are asynchronous browser I/O. They become the events `EnumerationFailed` and `OnEnumDevices`. The `setSinkId` promise becomes `OnSinkIdSettled(ok, err)`. The error values are strings.
- `console.log`/`console.error` logging is left out.
- Wav.Interleave: requires equal lengths. The source sizes the result |L| + |R| and writes pairs until it is full, dropping writes past the end. So a right channel one shorter gives the interleaving without the missing right sample (L = [a, b], R = [c] gives [a, c, b]). A right channel two or more shorter, or a shorter left channel, makes it read `undefined`, stored as NaN (L = [a], R = [c, d] gives [a, c, NaN]). Neither case is modelled.
- Buffers.MixBuffers: requires that no buffer is shorter than the first. A shorter buffer makes the source add `undefined`, which gives NaN.
- Wav.SetInt16: NaN and infinite samples are not modelled, because samples are reals. Float32 storage of the interleaved and mixed samples is not modelled either.
- Buffers.SampleCount: only ToIndex's RangeError is modelled. `new Float32Array(n)` also throws a RangeError when the engine cannot allocate 4n bytes, at an engine-specific limit far below 2^53. The model returns a count there.
- Buffers.GenerateSilence: for the same reason, the model returns a buffer for every length ToIndex accepts, including lengths for which the engine's allocation fails.
- Buffers.GenerateSilence: sampleRate*duration is an exact real product. The source's double product can fall on the other side of an integer, so the sample count can differ by one: at 44100 Hz and 0.7 s the source allocates 30869 samples and the model 30870.
- Buffers.Envelope: the `duration || 5` length of `generateTone` (dtmf.js:76-77) is not modelled. The contract covers only 0 <= t <= duration. With a falsy duration the tone runs 5 s while the fade-out uses the raw duration, so the gain leaves [0, 1] (`Buffers.EnvelopeZeroDuration`).
- Devices.ToLower: only ASCII letters are lowered. Unicode case mapping of other characters is not modelled.
- Player.Dtmf.Play: the `in` test of the source also sees inherited properties such as "toString". For those the element is undefined, so the result is false, as it is in the model. The audio element's own playback, which is silent before `setup()`, is not modelled.
- The getters `device` and `id` (dtmf.js:243-248) are the plain reads `Player.Dtmf.CurrentDevice` and `Player.Dtmf.Id`, with nothing to prove about them.
- Config.Configure: `devUseDefault` and `id` are modelled as a boolean and an integer. The source accepts any value there, and uses its truthiness or the value itself.
