/**
 * The SDL sound back end: SNDDMA_Init sizes the DMA ring buffer the mixer
 * writes into, the audio callback (paint_audio) copies bytes out of that
 * ring into SDL's stream and advances the read position, and
 * SNDDMA_Shutdown releases the buffer.
 *
 * The SDL 1.2 code path is modelled. SDL's answers (subsystem start,
 * device open, the obtained spec) and the allocation outcome are
 * parameters; the callback runs on the audio thread in the original, which
 * is not modelled. Bytes are `bv8`.
 */
module SndSdl {

  import opened QCommon

  const AUDIO_U8 := 0x0008
  const AUDIO_S8 := 0x8008
  /** AUDIO_S16SYS on a little-endian host (AUDIO_S16LSB). */
  const AUDIO_S16SYS := 0x8010

  /** The fields of SDL_AudioSpec the driver reads. */
  datatype AudioSpec = AudioSpec(freq: int, format: int, channels: int, samples: int)
  {
    /** The ranges of SDL's types: Uint16 format and samples, Uint8 channels. */
    predicate WellFormed()
    {
      0 <= format < 0x10000 && 0 <= channels < 0x100 && 0 <= samples < 0x10000
    }
  }

  /** The callback buffer size requested for a mixing rate: larger for higher rates. */
  function DesiredSamples(freq: int): (n: int)
    ensures n in {256, 512, 1024, 2048, 4096}
    ensures freq <= 11025 <==> n == 256
    ensures freq > 56000 <==> n == 4096
  {
    if freq <= 11025 then 256
    else if freq <= 22050 then 512
    else if freq <= 44100 then 1024
    else if freq <= 56000 then 2048
    else 4096
  }

  /** A higher mixing rate never asks for a smaller callback buffer. */
  lemma DesiredSamplesMonotone(f1: int, f2: int)
    requires f1 <= f2
    ensures DesiredSamples(f1) <= DesiredSamples(f2)
  {
  }

  /** The spec requested from SDL: snd_mixspeed truncated, 8-bit unsigned or 16-bit, stereo. */
  function DesiredSpec(mixspeed: real, loadas8bit: bool): (s: AudioSpec)
    ensures s.channels == 2
    ensures s.format == (if loadas8bit then AUDIO_U8 else AUDIO_S16SYS)
    ensures s.samples == DesiredSamples(s.freq)
  {
    var freq := Trunc(mixspeed);
    AudioSpec(freq, if loadas8bit then AUDIO_U8 else AUDIO_S16SYS, 2, DesiredSamples(freq))
  }

  predicate SupportedFormat(format: int)
  {
    format == AUDIO_S8 || format == AUDIO_U8 || format == AUDIO_S16SYS
  }

  /** `format & 0xFF`: the low byte of an SDL audio format is its sample width in bits. */
  function SampleBits(format: int): int
    requires 0 <= format
  {
    format % 0x100
  }

  /** The accepted formats are 8 or 16 bits wide, i.e. one or two bytes per sample. */
  lemma SupportedFormatWidths(format: int)
    requires SupportedFormat(format)
    ensures SampleBits(format) == (if format == AUDIO_S16SYS then 16 else 8)
    ensures SampleBits(format) / 8 in {1, 2}
  {
  }

  predicate IsPow2(n: int)
  {
    n == 1 || (n > 1 && n % 2 == 0 && IsPow2(n / 2))
  }

  /** The doubling loop of SNDDMA_Init: the smallest power of two not below tmp. */
  method NextPowerOfTwo(tmp: int) returns (val: int)
    ensures IsPow2(val) && tmp <= val
    ensures val == 1 || val / 2 < tmp
  {
    val := 1;
    while val < tmp
      invariant IsPow2(val)
      invariant val == 1 || val / 2 < tmp
      decreases tmp - val
    {
      val := val * 2;
    }
  }

  /** dma_t: the block the mixer and the callback share. */
  class Dma {
    var samplebits: int
    var signed8: bool
    var speed: int
    var channels: int
    var samples: int
    var samplepos: int
    var submissionChunk: int
    var buffer: array?<bv8>

    constructor()
      ensures buffer == null && samplepos == 0
    {
      buffer := null;
      samplepos := 0;
    }
  }

  /** Bytes per sample, `samplebits / 8`. */
  function Bps(samplebits: int): int
    requires samplebits >= 0
  {
    samplebits / 8
  }

  /** The byte offset the callback starts reading at: the read position, or 0 once it has reached the end. */
  function StartPos(samplepos: int, bps: int, buffersize: int): (pos: int)
    ensures 0 <= samplepos && 0 <= bps && 0 <= buffersize ==> 0 <= pos <= buffersize
    ensures samplepos * bps < buffersize ==> pos == samplepos * bps
    ensures samplepos * bps >= buffersize ==> pos == 0
  {
    if samplepos * bps >= buffersize then 0 else samplepos * bps
  }

  /** `len` bytes of a ring read from byte offset pos, wrapping at the end of the buffer. */
  function RingRead(buf: seq<bv8>, pos: int, len: int): (r: seq<bv8>)
    requires 0 <= pos <= |buf| && 0 <= len <= |buf|
    ensures |r| == len
  {
    if len <= |buf| - pos then buf[pos..pos + len]
    else buf[pos..] + buf[..len - (|buf| - pos)]
  }

  lemma ModSmall(a: int, n: int)
    requires 0 <= a < n
    ensures a % n == a
  {
  }

  lemma ModWrap(a: int, n: int)
    requires 0 < n <= a < 2 * n
    ensures a % n == a - n
  {
    ModSmall(a - n, n);
    assert (a - n) % n == a % n;
  }

  /** The ring read is the modular one: byte i comes from offset (pos + i) mod size. */
  lemma RingReadIsModular(buf: seq<bv8>, pos: int, len: int)
    requires 0 <= pos <= |buf| && 0 <= len <= |buf|
    ensures forall i :: 0 <= i < len ==> RingRead(buf, pos, len)[i] == buf[(pos + i) % |buf|]
  {
    var n := |buf|;
    var r := RingRead(buf, pos, len);
    forall i | 0 <= i < len
      ensures r[i] == buf[(pos + i) % n]
    {
      if pos + i < n {
        ModSmall(pos + i, n);
      } else {
        ModWrap(pos + i, n);
      }
    }
  }

  /** The read position after a callback, before the final end-of-buffer check. */
  function Advanced(samplepos: int, bps: int, buffersize: int, len: int): int
    requires bps > 0
  {
    var sp := if samplepos * bps >= buffersize then 0 else samplepos;
    var tobufend := buffersize - sp * bps;
    if len > tobufend then (len - tobufend) / bps else sp + len / bps
  }

  /**
   * The read position after a callback. The final check compares it, a
   * count of samples, with buffersize, a count of bytes.
   */
  function NextSamplepos(samplepos: int, bps: int, buffersize: int, len: int): int
    requires bps > 0
  {
    var sp := Advanced(samplepos, bps, buffersize, len);
    if sp >= buffersize then 0 else sp
  }

  /** After a callback the read position lies within the buffer, counted in bytes. */
  lemma NextSampleposInBuffer(samplepos: int, bps: int, buffersize: int, len: int)
    requires bps in {1, 2} && 0 <= samplepos && 0 <= len <= buffersize
    ensures 0 <= NextSamplepos(samplepos, bps, buffersize, len)
    ensures NextSamplepos(samplepos, bps, buffersize, len) * bps <= buffersize
  {
    AdvancedInBuffer(samplepos, bps, buffersize, len);
  }

  /** The advanced position, counted in bytes, never passes the buffer's end. */
  lemma AdvancedInBuffer(samplepos: int, bps: int, buffersize: int, len: int)
    requires bps in {1, 2} && 0 <= samplepos && 0 <= len <= buffersize
    ensures 0 <= Advanced(samplepos, bps, buffersize, len)
    ensures Advanced(samplepos, bps, buffersize, len) * bps <= buffersize
  {
    var sp := if samplepos * bps >= buffersize then 0 else samplepos;
    var tobufend := buffersize - sp * bps;
    if len > tobufend {
      assert (len - tobufend) / bps * bps <= len - tobufend;
    } else {
      assert (sp + len / bps) * bps == sp * bps + len / bps * bps;
      assert len / bps * bps <= len;
    }
  }

  /**
   * The sample-versus-byte comparison: with 16-bit samples and a nonempty
   * buffer it never fires, so the position can be left at the buffer's end
   * (it is reset by the next callback's start check instead).
   */
  lemma SixteenBitFinalCheckNeverFires(samplepos: int, buffersize: int, len: int)
    requires 0 <= samplepos && 0 < buffersize && 0 <= len <= buffersize
    ensures NextSamplepos(samplepos, 2, buffersize, len) == Advanced(samplepos, 2, buffersize, len)
  {
    AdvancedInBuffer(samplepos, 2, buffersize, len);
  }

  /** An example: a 16-bit read that ends exactly at the buffer's end leaves the position there. */
  lemma PositionLeftAtEnd()
    ensures NextSamplepos(0, 2, 8, 8) * 2 == 8
    ensures StartPos(NextSamplepos(0, 2, 8, 8), 2, 8) == 0
  {
  }

  lemma DivExact(a: int, b: int)
    requires b in {1, 2} && a % b == 0
    ensures a / b * b == a
  {
  }

  lemma MultipleMod(k: int, b: int)
    requires b in {1, 2}
    ensures (k * b) % b == 0
  {
  }

  /**
   * Consecutive callbacks read the ring contiguously: when whole samples
   * are read, the next read starts where this one ended, modulo the buffer.
   */
  lemma {:induction false} ReadsAreContiguous(samplepos: int, bps: int, buffersize: int, len: int)
    requires bps in {1, 2} && 0 <= samplepos && 0 < buffersize && 0 <= len <= buffersize
    requires buffersize % bps == 0 && len % bps == 0
    ensures StartPos(NextSamplepos(samplepos, bps, buffersize, len), bps, buffersize)
            == (StartPos(samplepos, bps, buffersize) + len) % buffersize
  {
    var pos := StartPos(samplepos, bps, buffersize);
    var sp := if samplepos * bps >= buffersize then 0 else samplepos;
    assert pos == sp * bps && 0 <= pos < buffersize;
    var tobufend := buffersize - pos;
    var adv := Advanced(samplepos, bps, buffersize, len);
    AdvancedInBuffer(samplepos, bps, buffersize, len);
    if len > tobufend {
      var len2 := len - tobufend;
      assert adv == len2 / bps;
      MultipleMod(sp, bps);
      assert len2 % bps == 0;
      DivExact(len2, bps);
      ModWrap(pos + len, buffersize);
      assert adv * bps == len2 < buffersize;
      assert adv < buffersize;
    } else {
      DivExact(len, bps);
      assert adv == sp + len / bps;
      assert adv * bps == sp * bps + len / bps * bps;
      if pos + len < buffersize {
        ModSmall(pos + len, buffersize);
        assert adv <= adv * bps;
      } else {
        assert (pos + len) % buffersize == 0;
      }
    }
  }

  /** The driver's own state: the shared block, the ring size in bytes and whether the device is open. */
  class SdlAudio {
    var shm: Dma?
    var buffersize: int
    var audioOpen: bool

    ghost predicate Valid()
      reads this, shm
    {
      shm != null ==>
        && shm.buffer != null
        && shm.buffer.Length == buffersize
        && (shm.samplebits == 8 || shm.samplebits == 16)
        && 0 <= shm.samplepos
    }

    constructor()
      ensures Valid() && shm == null && !audioOpen
    {
      shm := null;
      buffersize := 0;
      audioOpen := false;
    }

    /** memset(stream, 0, len) */
    static method ZeroFill(stream: array<bv8>, len: int)
      requires 0 <= len <= stream.Length
      modifies stream
      ensures forall i :: 0 <= i < len ==> stream[i] == 0
      ensures stream[len..] == old(stream[len..])
    {
      var i := 0;
      while i < len
        invariant 0 <= i <= len
        invariant forall j :: 0 <= j < i ==> stream[j] == 0
        invariant stream[len..] == old(stream[len..])
      {
        stream[i] := 0;
        i := i + 1;
      }
    }

    /** memcpy(dst + d, src + s, n) between distinct arrays. */
    static method CopyBytes(dst: array<bv8>, d: int, src: array<bv8>, s: int, n: int)
      requires dst != src
      requires 0 <= d && 0 <= s && 0 <= n && d + n <= dst.Length && s + n <= src.Length
      modifies dst
      ensures dst[d..d + n] == src[s..s + n]
      ensures dst[..d] == old(dst[..d]) && dst[d + n..] == old(dst[d + n..])
    {
      var i := 0;
      while i < n
        invariant 0 <= i <= n
        invariant dst[d..d + i] == src[s..s + i]
        invariant dst[..d] == old(dst[..d]) && dst[d + n..] == old(dst[d + n..])
      {
        dst[d + i] := src[s + i];
        i := i + 1;
      }
    }

    /**
     * The two memcpy calls of paint_audio: len1 bytes from offset pos, then,
     * when the read wraps, len2 bytes from the start of the ring.
     */
    static method ReadRing(stream: array<bv8>, buffer: array<bv8>, pos: int, len1: int, len2: int)
      requires stream != buffer
      requires 0 <= pos && 0 <= len1 && pos + len1 <= buffer.Length
      requires len2 > 0 ==> pos + len1 == buffer.Length
      requires len2 <= 0 ==> len2 == 0
      requires len1 + len2 <= buffer.Length && len1 + len2 <= stream.Length
      modifies stream
      ensures stream[..len1 + len2] == RingRead(buffer[..], pos, len1 + len2)
      ensures stream[len1 + len2..] == old(stream[len1 + len2..])
    {
      CopyBytes(stream, 0, buffer, pos, len1);
      if len2 > 0 {
        CopyBytes(stream, len1, buffer, 0, len2);
        assert stream[..len1 + len2] == stream[..len1] + stream[len1..len1 + len2];
      }
    }

    /**
     * paint_audio: with no DMA block the stream is silenced; otherwise len
     * bytes are read from the ring at the current position, wrapping to the
     * start, and the read position moves on. SDL asks for at most one
     * ring's worth per callback.
     */
    method PaintAudio(stream: array<bv8>, len: int)
      requires Valid()
      requires 0 <= len <= stream.Length
      requires shm != null ==> len <= buffersize && stream != shm.buffer
      modifies stream, shm
      ensures Valid()
      ensures shm == null ==> (forall i :: 0 <= i < len ==> stream[i] == 0)
      ensures stream[len..] == old(stream[len..])
      ensures shm != null ==>
                && shm.buffer == old(shm.buffer) && shm.samplebits == old(shm.samplebits)
                && shm.signed8 == old(shm.signed8) && shm.speed == old(shm.speed)
                && shm.channels == old(shm.channels) && shm.samples == old(shm.samples)
                && shm.submissionChunk == old(shm.submissionChunk)
                && stream[..len] == RingRead(shm.buffer[..], StartPos(old(shm.samplepos), Bps(shm.samplebits), buffersize), len)
                && shm.samplepos == NextSamplepos(old(shm.samplepos), Bps(shm.samplebits), buffersize, len)
    {
      if shm == null {
        ZeroFill(stream, len);
      } else {
        PaintFromRing(shm, buffersize, stream, len);
      }
    }

    /**
     * The start of paint_audio's read: an out-of-range position restarts at
     * zero, and the read is split at the end of the ring into len1 bytes
     * from pos and len2 bytes from the start.
     */
    static method SplitRead(samplepos: int, bps: int, buffersize: int, len: int)
      returns (sp: int, pos: int, len1: int, len2: int)
      requires bps in {1, 2} && 0 <= samplepos && 0 <= len <= buffersize
      ensures pos == StartPos(samplepos, bps, buffersize) && pos == sp * bps && 0 <= sp
      ensures 0 <= len1 && pos + len1 <= buffersize && len1 + len2 == len
      ensures len2 > 0 ==> pos + len1 == buffersize
      ensures len2 <= 0 ==> len2 == 0
      ensures Advanced(samplepos, bps, buffersize, len) == if len2 <= 0 then sp + len1 / bps else len2 / bps
    {
      sp := samplepos;
      pos := sp * bps;
      if pos >= buffersize {
        sp := 0;
        pos := 0;
      }
      var tobufend := buffersize - pos;
      len1 := len;
      len2 := 0;
      if len1 > tobufend {
        len1 := tobufend;
        len2 := len - len1;
      }
    }

    /** paint_audio with a DMA block in place. */
    static method PaintFromRing(dma: Dma, buffersize: int, stream: array<bv8>, len: int)
      requires dma.buffer != null && dma.buffer.Length == buffersize && stream != dma.buffer
      requires (dma.samplebits == 8 || dma.samplebits == 16) && 0 <= dma.samplepos
      requires 0 <= len <= stream.Length && len <= buffersize
      modifies stream, dma`samplepos
      ensures 0 <= dma.samplepos
      ensures stream[len..] == old(stream[len..])
      ensures stream[..len] == RingRead(dma.buffer[..], StartPos(old(dma.samplepos), Bps(dma.samplebits), buffersize), len)
      ensures dma.samplepos == NextSamplepos(old(dma.samplepos), Bps(dma.samplebits), buffersize, len)
    {
      var bps := dma.samplebits / 8;
      var samplepos, pos, len1, len2 := SplitRead(dma.samplepos, bps, buffersize, len);
      ReadRing(stream, dma.buffer, pos, len1, len2);
      NextSampleposInBuffer(dma.samplepos, bps, buffersize, len);
      if len2 <= 0 {
        samplepos := samplepos + len1 / bps;
      } else {
        samplepos := len2 / bps;
      }
      if samplepos >= buffersize {
        samplepos := 0;
      }
      dma.samplepos := samplepos;
    }

    /** The DMA block filled from the obtained spec, before the ring is allocated. */
    static method FillBlock(dma: Dma, obtained: AudioSpec)
      requires obtained.WellFormed() && SupportedFormat(obtained.format)
      modifies dma
      ensures var tmp := obtained.samples * obtained.channels * 10;
              && dma.samplebits == SampleBits(obtained.format)
              && dma.signed8 == (obtained.format == AUDIO_S8)
              && dma.speed == obtained.freq && dma.channels == obtained.channels
              && (tmp == 0 || IsPow2(tmp) ==> dma.samples == tmp)
              && (!(tmp == 0 || IsPow2(tmp)) ==> IsPow2(dma.samples) && tmp <= dma.samples && dma.samples / 2 < tmp)
              && dma.samplepos == 0 && dma.submissionChunk == 1 && dma.buffer == null
    {
      var tmp := obtained.samples * obtained.channels * 10;
      if !(tmp == 0 || IsPow2(tmp)) {
        tmp := NextPowerOfTwo(tmp);
      }
      dma.samplebits := SampleBits(obtained.format);
      dma.signed8 := obtained.format == AUDIO_S8;
      dma.speed := obtained.freq;
      dma.channels := obtained.channels;
      dma.samples := tmp;
      dma.samplepos := 0;
      dma.submissionChunk := 1;
      dma.buffer := null;
    }

    /**
     * SNDDMA_Init: only S8, U8 and S16SYS are accepted. The DMA block
     * takes the obtained rate and channels, its sample count is the
     * callback size times channels times ten rounded up to a power of two,
     * and the ring holds that many samples of samplebits / 8 bytes.
     */
    method Init(dma: Dma, subsystemOk: bool, openOk: bool, obtained: AudioSpec, allocOk: bool)
        returns (ok: bool)
      requires Valid() && obtained.WellFormed()
      modifies this, dma
      ensures Valid()
      ensures ok <==> subsystemOk && openOk && SupportedFormat(obtained.format) && allocOk
      ensures !subsystemOk ==> shm == old(shm) && audioOpen == old(audioOpen)
      ensures subsystemOk ==> audioOpen == ok
      ensures subsystemOk && !(openOk && SupportedFormat(obtained.format)) ==> shm == old(shm)
      ensures subsystemOk && openOk && SupportedFormat(obtained.format) && !allocOk ==> shm == null
      ensures ok ==>
                var tmp := obtained.samples * obtained.channels * 10;
                && shm == dma
                && dma.samplebits == SampleBits(obtained.format)
                && dma.signed8 == (obtained.format == AUDIO_S8)
                && dma.speed == obtained.freq && dma.channels == obtained.channels
                && (tmp == 0 || IsPow2(tmp) ==> dma.samples == tmp)
                && (!(tmp == 0 || IsPow2(tmp)) ==> IsPow2(dma.samples) && tmp <= dma.samples && dma.samples / 2 < tmp)
                && dma.samplepos == 0 && dma.submissionChunk == 1
                && buffersize == dma.samples * (dma.samplebits / 8)
                && fresh(dma.buffer)
                && (forall i :: 0 <= i < buffersize ==> dma.buffer[i] == 0)
    {
      if !subsystemOk {
        return false;
      }
      audioOpen := true;
      if !openOk {
        audioOpen := false;
        return false;
      }
      if !SupportedFormat(obtained.format) {
        audioOpen := false;
        return false;
      }
      SupportedFormatWidths(obtained.format);
      FillBlock(dma, obtained);
      shm := dma;
      buffersize := dma.samples * (dma.samplebits / 8);
      if !allocOk {
        audioOpen := false;
        shm := null;
        return false;
      }
      dma.buffer := new bv8[buffersize](_ => 0);
      ok := true;
    }

    /** SNDDMA_Shutdown: closes the device and frees the ring; with no block it does nothing. */
    method Shutdown()
      requires Valid()
      modifies this, shm
      ensures Valid() && shm == null
      ensures old(shm) != null ==> !audioOpen && old(shm).buffer == null
      ensures old(shm) == null ==> audioOpen == old(audioOpen) && buffersize == old(buffersize)
    {
      if shm != null {
        audioOpen := false;
        shm.buffer := null;
        shm := null;
      }
    }
  }

  /** A second shutdown is a no-op. */
  method ShutdownTwice(audio: SdlAudio) returns (openAfterFirst: bool, openAfterSecond: bool)
    requires audio.Valid()
    modifies audio, audio.shm
    ensures openAfterSecond == openAfterFirst
    ensures audio.shm == null
  {
    audio.Shutdown();
    openAfterFirst := audio.audioOpen;
    audio.Shutdown();
    openAfterSecond := audio.audioOpen;
  }
}
