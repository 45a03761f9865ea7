# ltc-npm-modulate in Dafny

A model of the encoder side of the Chibitronics Love-to-Code audio
programming protocol, as implemented by `ModulationController` in
`index.js`. A program payload (a byte array) is cut into 256-byte blocks.
Each block becomes a framed, XOR-striped, hash-checked data packet. One
control packet announcing the whole payload is sent twice before the
blocks. The packets are modulated into 16-bit PCM samples and separated by
silences. The sample stream is then wrapped in a 44-byte RIFF/WAVE
container. A small state machine replays the audio a set number of times.

The project has six modules:

- `Bytes` (`bytes.dfy`): bytes as numbers 0..255, JavaScript's `^` on bytes
  (`Xor`), the little-endian encoders `makeUint32`/`makeUint16`, the in-place
  writers `appendData`, `fillU32`, `fillU16`, and `makePacket`.
- `External` (`external.dfy`): the collaborators the encoder calls but does
  not define (murmurhash3, MD5, the FSK modulator, the pilot-tone samples).
  They are fields of a `Ports` value, so every property holds for every
  choice of them.
- `Frame` (`frame.dfy`): control and data headers, the 0xFF-padded data
  region, footers, the protocol 1 and protocol 2 striping, and whole
  packets. Both a functional definition (`CtlPacket`, `DataPacket`) and the
  step-by-step builders (`BuildCtlPacket`, `BuildDataPacket`, the striping
  loops) are given and proved equal. The decoders a receiver would run
  (`DecodeDataPacket`, the footer checks) state what the packets carry.
- `Transmission` (`transmission.dfy`): `transcode` and `makeSilence`. The
  stream is described as a `Plan` of segments and rendered by `RenderAll`.
  The method `Transcode`, written as the source pushes samples, is proved to
  produce exactly the rendered plan.
- `Wav` (`wav.dfy`): `getWavArray`, header and sample encoding, stated
  through the decoders a WAV reader would run (`DecodeSample`, the
  little-endian field readers).
- `Playback` (`playback.dfy`): the replay counter of the `ended` handler.

The footer of a data packet is the hash of the header and data as they are
before striping: `makeFooter` copies its arguments at index.js:408, and the
striping loops at index.js:416-443 run afterwards.

## Model

| member | source | states |
|---|---|---|
| Bytes.MakeUint32 | index.js:320-326 | four bytes that a little-endian reader decodes to the number modulo 2^32, and to the number itself below 2^32 |
| Bytes.MakeUint32Injective | index.js:320-326 | two numbers get the same four bytes exactly when they agree modulo 2^32 |
| Bytes.MakeUint16 | index.js:328-332 | two bytes that decode little-endian to the number modulo 2^16 |
| Bytes.AppendData | index.js:337-342 | the array keeps its length; byte `offset + i` becomes `src[i]`, every other byte is unchanged, and writes past the end are dropped |
| Bytes.AppendDataExtends | index.js:337-342 | when the source fits, the array up to its end is the old prefix followed by the source, and the rest is untouched |
| Bytes.FillU32 | index.js:192-197 | the four bytes at the offset read back as the value modulo 2^32; no other byte changes |
| Bytes.FillU16 | index.js:187-190 | the two bytes at the offset read back as the value modulo 2^16; no other byte changes |
| Bytes.MakePacket | index.js:362-375 | the packet is the concatenation of its parts, in argument order |
| Bytes.Xor | index.js:416-440 | XOR of two bytes is a byte, and XOR with a zero key leaves the byte unchanged |
| Bytes.XorBitsBitwise | index.js:416-440 | every binary digit of the XOR is 1 exactly where the operands' digits differ, which is what `^` means |
| Bytes.XorInvolution | index.js:416-440 | XOR with the same key twice restores the byte |
| Bytes.XorFixed | index.js:416-440 | a key leaves a byte unchanged exactly when the key is zero |
| Frame.VersionOf | index.js:416-443 | `this.version` 1 and 2 select the two striping rules, any other number is refused; the selected version's byte is that number |
| Frame.ControlHeader | index.js:45-47 | four bytes: the version byte, the control type 0x01, and a zero 16-bit field |
| Frame.DataHeader | index.js:49-51 | four bytes: the version byte, the data type 0x02, and a block field that reads back as the block number modulo 65536 |
| Frame.DataHeaderWraps | index.js:49-51 | two block numbers give the same data header exactly when they agree modulo 65536 |
| Frame.HeaderKinds | index.js:45-51 | control and data headers always differ (type byte 0x01 against 0x02), and byte 0 of either names its version |
| Frame.MakeFooter | index.js:348-360 | four bytes decoding to the hash, seed 0xDEADBEEF, of all parts joined in order |
| Frame.StripeInvolution | index.js:414-440 | striping a body twice restores it, so a receiver de-stripes by striping again |
| Frame.StripeTouches | index.js:414-440 | exactly which bytes striping changes: under version 1 the data bytes at positions 3 and 11 modulo 16 and never the header; under version 2 every byte except the version and type bytes |
| Frame.StripeV1InPlace | index.js:416-422 | after the version 1 loop, data byte `k` is the original XOR the version 1 key for `k` |
| Frame.StripeV2InPlace | index.js:423-440 | after the version 2 loop, header bytes 0 and 1 are unchanged, header bytes 2 and 3 and every data byte are XORed with the key for their position in header‖data |
| Frame.StripeInPlace | index.js:414-440 | the two loops, dispatched on the version, leave header‖data equal to the striped body |
| Frame.PadData | index.js:403-406 | the data region is 256 bytes: the input bytes first, 0xFF after them, and input past 256 bytes dropped |
| Frame.MakeDataPacket | index.js:396-445 | refuses a version other than 1 or 2 with that version as the error; otherwise gives 272 bytes whose byte 7 is the version |
| Frame.CtlPacketLayout | index.js:377-394 | the packet `CtlPacket` builds for `makeCtlPacket` is 40 bytes: preamble `00 00 00 00 AA 55 42`, header `[v, 1, 0, 0]`, a length reading back as the payload length modulo 2^32, the payload hash with seed 0x32D0BABE, the 16-byte MD5, a footer over bytes 7..35, stop byte 0xFF |
| Frame.DataPacketLayout | index.js:396-445 | the packet `DataPacket` builds for `makeDataPacket` is 272 bytes: the preamble, version and type bytes readable before de-striping, a body that de-stripes to header‖padded data, a footer hashing exactly the unstriped header and data, stop byte 0xFF |
| Frame.DataPacketRoundTrip | index.js:396-445 | a receiver recovers the block number modulo 65536 and a region holding the input bytes as far as they go and 0xFF after them; an input of at most 256 bytes comes back whole |
| Frame.DataPacketStriping | index.js:414-440 | the packet byte by byte: version 1 keeps the header and XORs data byte `i` with 0x55 or 0xAA when `i % 16` is 3 or 11; version 2 keeps header bytes 0 and 1, XORs bytes 2 and 3 with 0x95 and 0x35 and data byte `k` with `[0x35, 0xAC, 0x95][(k + 4) % 3]`; the footer is that of the unstriped parts |
| Frame.BuildCtlPacket | index.js:377-394 | the step-by-step control packet builder produces 40 bytes whose footer checks out and which equal the packet definition |
| Frame.BuildDataPacket | index.js:396-445 | the step-by-step data packet builder (pad, footer, stripe in place, concatenate) refuses unknown versions and otherwise produces a packet whose footer checks out after de-striping |
| Transmission.TranscodeVersion | index.js:58-64 | 1 selects version 1; 2 or an absent argument selects version 2; any other value is refused with that value |
| Transmission.MakeSilence | index.js:304-308 | only zero samples, the fewest that last at least the given milliseconds at the rate |
| Transmission.SilenceExamples | index.js:304-308 | at 44100 Hz, 150 ms is 6615 samples, 100 ms is 4410, 500 ms is 22050 and 80 ms is 3528 |
| Transmission.LowTone | index.js:310-318 | the pilot tone has as many samples as a silence of the same length, taken in order from the tone |
| Transmission.BlockCount | index.js:66-67 | the fewest 256-byte blocks that cover the payload |
| Transmission.Block | index.js:95-100 | every block is non-empty and at most 256 bytes |
| Transmission.BlocksPartition | index.js:95-100 | the blocks joined in ascending order are exactly the payload |
| Transmission.Transcode | index.js:57-112 | an unrecognized version is refused before any output and leaves the controller unchanged; otherwise the stored version becomes the selected one and the samples are exactly the rendered plan |
| Transmission.EmitLead | index.js:72-79 | the lead silence, then the pilot tone and a gap only when the `lbr` argument is set |
| Transmission.EmitControl | index.js:81-93 | the control packet modulated twice, a gap between, the settle silence after |
| Transmission.EmitBlock | index.js:95-106 | one pass of the block loop: the block's data packet, built with the stored version so that it cannot be refused, modulated, and the inter-packet silence |
| Transmission.EmitBlocks | index.js:95-106 | each block's packet and silence, in ascending block order |
| Transmission.PlanLayout | index.js:57-112 | the order of a transmission: lead silence, pilot and gap only with `lbr`, control, gap, control, settle silence, then per block its packet and a gap, then the trail silence, and nothing else |
| Transmission.ControlFramesIdentical | index.js:81-93 | both control frames of a transmission are the same 40-byte packet |
| Transmission.DataPacketsCarryPayload | index.js:95-106 | packet `b` carries block number `b` modulo 65536, a valid footer and block `b` of the payload; the blocks joined give back the payload |
| Wav.SampleBytes | index.js:250-257 | a sample's two bytes decode little-endian to `(s + 65536) % 65536`, its 16-bit two's complement |
| Wav.SampleRoundTrip | index.js:250-257 | a reader decodes the bytes back to the sample, and every byte pair is the encoding of the sample it decodes to |
| Wav.DataChunkLayout | index.js:247-258 | sample `i` occupies data bytes `2i` and `2i + 1` and reads back as itself |
| Wav.HeaderFields | index.js:214-244 | the 44 header bytes hold `RIFF`, the chunk size, `WAVE`, `fmt `, 16, format 1, 1 channel, the sample rate, the byte rate, the block align, 16 bits, `data` and the data size, each little-endian at its offset |
| Wav.WriteHeader | index.js:214-244 | the in-place header writes produce those 44 bytes and leave the rest of the array as it was |
| Wav.WriteSamples | index.js:247-258 | the sample loop fills everything after the header with the data chunk and leaves the header alone |
| Wav.GetWavArray | index.js:199-261 | the result is the canonical header for the sample count and rate followed by the data chunk |
| Wav.WavArrayLayout | index.js:199-261 | for N samples at rate R: 44 + 2N bytes, chunk size 36 + 2N at offset 4, sample rate R at 24, byte rate 2R at 28, data size 2N at 40, and every sample read back from offset 44 + 2i |
| Wav.WavSamplesReadBack | index.js:247-258 | whatever the header bytes, sample `i` reads back from offset 44 + 2i |
| Playback.StartSend | index.js:148-158 | a send resets the play count to 0; the handler is installed only when the transcode returned |
| Playback.OnEnded | index.js:158-168 | with no handler an event does nothing; otherwise the count goes up by one, the audio replays exactly when the new count is below `repeat`, and otherwise the handler detaches and the end callback runs if one was given |
| Playback.RunAfterStart | index.js:148-168 | after a send, the first `max(1, repeat) - 1` events replay, the next one finishes, and every later one is ignored |
| Playback.FinishesOnce | index.js:158-168 | once `max(1, repeat)` events have arrived, the actions are the replays, one finish, then nothing: the end callback runs exactly once |

## Left out

- `modulate.js` and its FSK encoder: the modulator is an arbitrary function from a low-bitrate flag and packet bytes to 16-bit samples.
- Transmission.LowTone: only the length of the pilot tone and that its samples come from a tone function in order; the floating-point cosine of `makeLowTone` is not modelled.
- Transmission.MakeSilence: the count is the exact ceiling of `rate * ms / 1000`; the floating-point `rate / (1000.0 / ms)` gives the same count for every duration the transmission uses, but not necessarily for every duration.
- The murmurhash3 and MD5 implementations, and the parsing of MD5's hex string back into 16 bytes: the hash and the digest are arbitrary functions. The conversion of the payload to a string with `String.fromCharCode.apply(null, data)` before hashing (index.js:384) passes one argument per byte, and JavaScript engines cap the number of arguments, so a large enough payload throws there before any packet exists; `Frame.CtlPacket` is total and does not model that limit, which depends on the engine.
- `transcodeToAudioTag`'s format selection, `transcodeWav`, `transcodeMp3`, Blob and object-URL handling, and the audio tag's `pause`/`play`/`src`: browser plumbing with no bytes to compute.
- `getRawWavData`: it passes an undefined `samples` to `getWavArray`, so it has no behaviour to model.
- `stop`, `isRunning`, `getPcmData` and the canvas: flag and field accessors.
- Wav.GetWavArray: the sample rate is a parameter; the source always uses `this.rate`, which the constructor fixes at 44100.
- Wav.SampleBytes: samples are integers in the 16-bit range; the `Math.round` calls for fractional samples are not modelled.
- Frame.CtlPacket: the version is one of the two known ones; `makeCtlPacket` itself writes whatever `this.version` holds, but it is only reached from `transcode`, which has just validated it.
- Frame.PadData: a block longer than 256 bytes is silently cut to 256 bytes, as `appendData` into a `Uint8Array(256)` does; no error is raised, because the source raises none.
- Frame.DataHeader: block numbers wrap modulo 65536, as the source's `& 0xff` does; no error is raised for payloads of more than 65536 blocks.
- Playback.OnEnded: `repeat` is an integer; the constructor's `params.repeat || 3` default and non-numeric values are not modelled.
- Concurrency between `ended` events and a new send, and the audio element's timing, are not modelled: events arrive one at a time.
