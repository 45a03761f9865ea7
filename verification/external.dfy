/**
  The collaborators the encoder calls but does not define: the 32-bit
  murmurhash3 (`murmurhash3_32_gc`), the MD5 digest (`SparkMD5.hashBinary`,
  hex output parsed back to bytes), the FSK modulator
  (`Modulator.modulatePcm(bytes, 16, lbr)`) and the samples of the pilot
  tone (`makeLowTone`). They are carried as total function values, so every
  property proved below holds for every choice of them.
*/
module External {
  import opened Bytes

  /** An unsigned 32-bit value, as returned by the hash. */
  type u32 = n: nat | n < 0x1_0000_0000

  /** A 16-bit signed PCM sample, the element type of the modulator's `Int16Array`. */
  type Sample = x: int | -0x8000 <= x < 0x8000

  /** The sixteen bytes of an MD5 digest. */
  type Digest = s: seq<byte> | |s| == 16 witness seq(16, _ => 0)

  datatype Ports = Ports(
    /** `murmurhash3_32_gc(bytes, seed)` */
    hash: (seq<byte>, u32) -> u32,
    /** MD5 of the bytes */
    md5: seq<byte> -> Digest,
    /** the int16 samples the modulator produces for a packet, in the given low-bitrate mode */
    modulate: (bool, seq<byte>) -> seq<Sample>,
    /** sample `i` of the pilot tone, `Math.round(cos(i * omega) * 32767)` */
    lowTone: nat -> Sample
  )
}
