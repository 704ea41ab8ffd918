/** The browser's audio path (script.js:30-83 and script.js:219-222): the
    server's PCM arrives as a base64 string, is copied byte by byte out of the
    decoded binary string, viewed as 16-bit samples and wrapped in a 44-byte
    RIFF/WAVE header (Microsoft RIFF WAVE format, PCM `fmt ` chunk) with
    little-endian integers. */
module Audio {
  import opened Wrappers
  import opened Bytes

  /** The fixed size of the RIFF/WAVE header `pcmToWav` writes. */
  const HeaderSize := 44

  const Uint32Modulus := 0x1_0000_0000

  /** JavaScript's ToUint8, applied by `DataView.setUint8` and by a store into
      a `Uint8Array`. */
  function ToUint8(n: int): uint8 {
    (n % 0x100) as uint8
  }

  /** The unsigned little-endian value of `b[at]`, `b[at + 1]`. */
  function ReadUint16(b: seq<uint8>, at: nat): (v: int)
    requires at + 2 <= |b|
  {
    b[at] as int + 0x100 * b[at + 1] as int
  }

  /** The unsigned little-endian value of the four bytes at `at`. */
  function ReadUint32(b: seq<uint8>, at: nat): int
    requires at + 4 <= |b|
  {
    ReadUint16(b, at) + 0x1_0000 * ReadUint16(b, at + 2)
  }

  /** The signed (two's complement) little-endian value of the two bytes at
      `at`, as an `Int16Array` element reads them. */
  function ReadInt16(b: seq<uint8>, at: nat): int16
    requires at + 2 <= |b|
  {
    var u := ReadUint16(b, at);
    (if u < 0x8000 then u else u - 0x1_0000) as int16
  }

  /** The bytes `setUint16(pos, n, true)` and `setInt16(pos, n, true)` store:
      `n` modulo 2^16, low byte first. */
  function Uint16LE(n: int): (b: seq<uint8>)
    ensures |b| == 2 && ReadUint16(b, 0) == n % 0x1_0000
  {
    var u := n % 0x1_0000;
    [(u % 0x100) as uint8, (u / 0x100) as uint8]
  }

  /** The bytes `setUint32(pos, n, true)` stores: `n` modulo 2^32, low byte
      first. */
  function Uint32LE(n: int): (b: seq<uint8>)
    ensures |b| == 4 && ReadUint32(b, 0) == n % Uint32Modulus
  {
    var u := n % Uint32Modulus;
    Uint16LE(u % 0x1_0000) + Uint16LE(u / 0x1_0000)
  }

  /** The char codes of `s`, each stored as a byte: what `writeString` writes
      and what `base64ToArrayBuffer` copies out of a binary string. */
  function CharCodeBytes(s: string): (b: seq<uint8>) {
    seq(|s|, i requires 0 <= i < |s| => ToUint8(s[i] as int))
  }

  /** The binary string whose char codes are the bytes `b` (what `atob`
      returns for the base64 encoding of `b`). */
  function BinaryString(b: seq<uint8>): string {
    seq(|b|, i requires 0 <= i < |b| => b[i] as int as char)
  }

  /** The RIFF chunk descriptor (script.js:52-54): "RIFF", the chunk size
      and "WAVE". */
  function RiffDescriptor(dataLength: int): (b: seq<uint8>)
    ensures |b| == 12
  {
    CharCodeBytes("RIFF") + Uint32LE(36 + dataLength) + CharCodeBytes("WAVE")
  }

  /** The `fmt ` sub-chunk (script.js:55-62): PCM, one channel, 16 bits. */
  function FmtChunk(sampleRate: int): (b: seq<uint8>)
    ensures |b| == 24
  {
    FmtFormat() + FmtRates(sampleRate) + FmtBlock()
  }

  /** The tag, the sub-chunk size 16, format 1 (PCM) and one channel
      (script.js:55-58). */
  function FmtFormat(): (b: seq<uint8>)
    ensures |b| == 12
  {
    CharCodeBytes("fmt ") + Uint32LE(16) + Uint16LE(1) + Uint16LE(1)
  }

  /** The sample rate and the byte rate (script.js:59-60). */
  function FmtRates(sampleRate: int): (b: seq<uint8>)
    ensures |b| == 8
  {
    Uint32LE(sampleRate) + Uint32LE(sampleRate * 2)
  }

  /** Block align 2 and 16 bits per sample (script.js:61-62). */
  function FmtBlock(): (b: seq<uint8>)
    ensures |b| == 4
  {
    Uint16LE(2) + Uint16LE(16)
  }

  /** The `data` sub-chunk header (script.js:63-64). */
  function DataChunkHeader(dataLength: int): (b: seq<uint8>)
    ensures |b| == 8
  {
    CharCodeBytes("data") + Uint32LE(dataLength)
  }

  /** The 44-byte header of script.js:52-64 for `dataLength` bytes of PCM. */
  function WavHeader(sampleRate: int, dataLength: int): (h: seq<uint8>)
    ensures |h| == HeaderSize
  {
    RiffDescriptor(dataLength) + FmtChunk(sampleRate) + DataChunkHeader(dataLength)
  }

  /** The samples, each as two little-endian bytes, in order. */
  function SampleBytes(samples: seq<int16>): (b: seq<uint8>)
    ensures |b| == 2 * |samples|
  {
    if samples == [] then []
    else SampleBytes(samples[..|samples| - 1]) + Uint16LE(samples[|samples| - 1] as int)
  }

  /** The whole file `pcmToWav` builds. */
  function WavBytes(samples: seq<int16>, sampleRate: int): seq<uint8> {
    WavHeader(sampleRate, 2 * |samples|) + SampleBytes(samples)
  }

  /** Reads an even number of bytes as little-endian 16-bit samples. */
  function DecodeSamples(b: seq<uint8>): (s: seq<int16>)
    requires |b| % 2 == 0
  {
    seq(|b| / 2, i requires 0 <= i < |b| / 2 => ReadInt16(b, 2 * i))
  }

  /** `new Int16Array(buffer)` (script.js:221): the samples of an even-length
      buffer; an odd length throws a RangeError. */
  function Int16View(b: seq<uint8>): (r: Option<seq<int16>>)
    ensures r.Some? <==> |b| % 2 == 0
    ensures r.Some? ==> 2 * |r.value| == |b|
  {
    if |b| % 2 == 0 then Some(DecodeSamples(b)) else None
  }

  /** What a reader of the file can recover from it. */
  datatype WavInfo = WavInfo(sampleRate: int, samples: seq<int16>)

  /** A 44-byte header is one `pcmToWav` could have written: the tags are in
      place, the format is 16-bit mono PCM, the byte rate is twice the sample
      rate and the chunk size is 36 more than the data length (both modulo
      2^32). */
  predicate IsPcmMonoHeader(h: seq<uint8>)
    requires |h| == HeaderSize
  {
    && h[0..4] == CharCodeBytes("RIFF")
    && ReadUint32(h, 4) == (36 + ReadUint32(h, 40)) % Uint32Modulus
    && h[8..12] == CharCodeBytes("WAVE")
    && h[12..16] == CharCodeBytes("fmt ")
    && ReadUint32(h, 16) == 16
    && ReadUint16(h, 20) == 1
    && ReadUint16(h, 22) == 1
    && ReadUint32(h, 28) == (ReadUint32(h, 24) * 2) % Uint32Modulus
    && ReadUint16(h, 32) == 2
    && ReadUint16(h, 34) == 16
    && h[36..40] == CharCodeBytes("data")
  }

  /** A reader for exactly the files `pcmToWav` writes: the header is
      checked, the declared data length must be the rest of the file, and the
      payload is decoded as samples. */
  function ParseWav(w: seq<uint8>): Option<WavInfo> {
    if |w| < HeaderSize then None
    else
      var h := w[..HeaderSize];
      if IsPcmMonoHeader(h) && ReadUint32(h, 40) == |w| - HeaderSize && (|w| - HeaderSize) % 2 == 0
      then Some(WavInfo(ReadUint32(h, 24), DecodeSamples(w[HeaderSize..])))
      else None
  }

  // ---- Properties of the encoding ----

  /** A read only looks at its own bytes. */
  lemma ReadsOfSlice(b: seq<uint8>, at: nat, width: nat)
    requires width == 2 || width == 4
    requires at + width <= |b|
    ensures width == 2 ==> ReadUint16(b, at) == ReadUint16(b[at..at + 2], 0)
    ensures width == 4 ==> ReadUint32(b, at) == ReadUint32(b[at..at + 4], 0)
  {
  }

  lemma RiffFields(dataLength: int)
    ensures var r := RiffDescriptor(dataLength);
      && r[0..4] == CharCodeBytes("RIFF")
      && ReadUint32(r, 4) == (36 + dataLength) % Uint32Modulus
      && r[8..12] == CharCodeBytes("WAVE")
  {
    var r := RiffDescriptor(dataLength);
    assert r[4..8] == Uint32LE(36 + dataLength);
    ReadsOfSlice(r, 4, 4);
  }

  /** Reads and tags inside either half of a concatenation. */
  lemma ReadsOfConcat(a: seq<uint8>, b: seq<uint8>, k: nat)
    ensures k + 2 <= |a| ==> ReadUint16(a + b, k) == ReadUint16(a, k)
    ensures k + 4 <= |a| ==> ReadUint32(a + b, k) == ReadUint32(a, k)
    ensures k + 4 <= |a| ==> (a + b)[k..k + 4] == a[k..k + 4]
    ensures k + 2 <= |b| ==> ReadUint16(a + b, |a| + k) == ReadUint16(b, k)
    ensures k + 4 <= |b| ==> ReadUint32(a + b, |a| + k) == ReadUint32(b, k)
    ensures k + 4 <= |b| ==> (a + b)[|a| + k..|a| + k + 4] == b[k..k + 4]
  {
  }

  lemma FmtFormatFields()
    ensures var a := FmtFormat();
      a[0..4] == CharCodeBytes("fmt ") && ReadUint32(a, 4) == 16 && ReadUint16(a, 8) == 1 && ReadUint16(a, 10) == 1
  {
    var a := FmtFormat();
    var tag, size, format, channels := CharCodeBytes("fmt "), Uint32LE(16), Uint16LE(1), Uint16LE(1);
    assert a[4] == size[0] && a[5] == size[1] && a[6] == size[2] && a[7] == size[3];
    assert a[8] == format[0] && a[9] == format[1] && a[10] == channels[0] && a[11] == channels[1];
  }

  lemma FmtRatesFields(sampleRate: int)
    ensures var b := FmtRates(sampleRate);
      ReadUint32(b, 0) == sampleRate % Uint32Modulus && ReadUint32(b, 4) == (sampleRate * 2) % Uint32Modulus
  {
    ReadsOfConcat(Uint32LE(sampleRate), Uint32LE(sampleRate * 2), 0);
  }

  lemma FmtBlockFields()
    ensures var c := FmtBlock();
      ReadUint16(c, 0) == 2 && ReadUint16(c, 2) == 16
  {
    var align, bits := Uint16LE(2), Uint16LE(16);
    assert ReadUint16(align, 0) == 2 && ReadUint16(bits, 0) == 16;
    ReadsOfConcat(align, bits, 0);
  }

  lemma FmtFields(sampleRate: int)
    ensures var f := FmtChunk(sampleRate);
      && f[0..4] == CharCodeBytes("fmt ")
      && ReadUint32(f, 4) == 16
      && ReadUint16(f, 8) == 1
      && ReadUint16(f, 10) == 1
      && ReadUint32(f, 12) == sampleRate % Uint32Modulus
      && ReadUint32(f, 16) == (sampleRate * 2) % Uint32Modulus
      && ReadUint16(f, 20) == 2
      && ReadUint16(f, 22) == 16
  {
    var a, b, c := FmtFormat(), FmtRates(sampleRate), FmtBlock();
    FmtFormatFields();
    FmtRatesFields(sampleRate);
    FmtBlockFields();
    ReadsOfConcat(a + b, c, 0);
    ReadsOfConcat(a + b, c, 2);
    ReadsOfConcat(a + b, c, 4);
    ReadsOfConcat(a + b, c, 8);
    ReadsOfConcat(a + b, c, 10);
    ReadsOfConcat(a + b, c, 12);
    ReadsOfConcat(a + b, c, 16);
    ReadsOfConcat(a, b, 0);
    ReadsOfConcat(a, b, 4);
    ReadsOfConcat(a, b, 8);
    ReadsOfConcat(a, b, 10);
  }

  lemma DataFields(dataLength: int)
    ensures var d := DataChunkHeader(dataLength);
      d[0..4] == CharCodeBytes("data") && ReadUint32(d, 4) == dataLength % Uint32Modulus
  {
    var d := DataChunkHeader(dataLength);
    assert d[4..8] == Uint32LE(dataLength);
    ReadsOfSlice(d, 4, 4);
  }

  /** The header holds, in order: "RIFF", the chunk size 36 + data length,
      "WAVE", "fmt ", the fmt size 16, format 1 (PCM), one channel, the sample
      rate, the byte rate 2 x rate, block align 2, 16 bits per sample, "data"
      and the data length; every integer little-endian modulo 2^32 or 2^16. */
  lemma HeaderFields(sampleRate: int, dataLength: int)
    ensures var h := WavHeader(sampleRate, dataLength);
      && h[0..4] == CharCodeBytes("RIFF")
      && ReadUint32(h, 4) == (36 + dataLength) % Uint32Modulus
      && h[8..12] == CharCodeBytes("WAVE")
      && h[12..16] == CharCodeBytes("fmt ")
      && ReadUint32(h, 16) == 16
      && ReadUint16(h, 20) == 1
      && ReadUint16(h, 22) == 1
      && ReadUint32(h, 24) == sampleRate % Uint32Modulus
      && ReadUint32(h, 28) == (sampleRate * 2) % Uint32Modulus
      && ReadUint16(h, 32) == 2
      && ReadUint16(h, 34) == 16
      && h[36..40] == CharCodeBytes("data")
      && ReadUint32(h, 40) == dataLength % Uint32Modulus
  {
    var r, f, d := RiffDescriptor(dataLength), FmtChunk(sampleRate), DataChunkHeader(dataLength);
    RiffFields(dataLength);
    FmtFields(sampleRate);
    DataFields(dataLength);
    ReadsOfConcat(r + f, d, 0);
    ReadsOfConcat(r + f, d, 4);
    ReadsOfConcat(r, f, 0);
    ReadsOfConcat(r, f, 4);
    ReadsOfConcat(r, f, 8);
    ReadsOfConcat(r, f, 10);
    ReadsOfConcat(r, f, 12);
    ReadsOfConcat(r, f, 16);
    ReadsOfConcat(r, f, 20);
    ReadsOfConcat(r, f, 22);
    ReadsOfConcat(r + f, d, 8);
    ReadsOfConcat(r + f, d, 12);
    ReadsOfConcat(r + f, d, 16);
    ReadsOfConcat(r + f, d, 20);
    ReadsOfConcat(r + f, d, 22);
    ReadsOfConcat(r + f, d, 24);
    ReadsOfConcat(r + f, d, 28);
    ReadsOfConcat(r + f, d, 32);
    ReadsOfConcat(r + f, d, 34);
  }

  /** The two bytes of sample `i` sit at offset 2i of the payload. */
  lemma {:induction false} SampleBytesAt(samples: seq<int16>, i: nat)
    requires i < |samples|
    ensures SampleBytes(samples)[2 * i..2 * i + 2] == Uint16LE(samples[i] as int)
    decreases |samples|
  {
    var n := |samples|;
    var init := samples[..n - 1];
    assert SampleBytes(samples) == SampleBytes(init) + Uint16LE(samples[n - 1] as int);
    if i < n - 1 {
      SampleBytesAt(init, i);
      assert init[i] == samples[i];
    }
  }

  /** Writing a sample and reading it back gives the sample. */
  lemma Int16RoundTrip(v: int16)
    ensures ReadInt16(Uint16LE(v as int), 0) == v
  {
  }

  /** In the file, sample `i` sits at byte offset 44 + 2i. */
  lemma WavSampleAt(samples: seq<int16>, sampleRate: int, i: nat)
    requires i < |samples|
    ensures WavBytes(samples, sampleRate)[HeaderSize + 2 * i..HeaderSize + 2 * i + 2] == Uint16LE(samples[i] as int)
    ensures ReadInt16(WavBytes(samples, sampleRate), HeaderSize + 2 * i) == samples[i]
  {
    var h, p := WavHeader(sampleRate, 2 * |samples|), SampleBytes(samples);
    SampleBytesAt(samples, i);
    Int16RoundTrip(samples[i]);
    assert (h + p)[HeaderSize + 2 * i] == p[2 * i] && (h + p)[HeaderSize + 2 * i + 1] == p[2 * i + 1];
    assert p[2 * i..2 * i + 2][0] == p[2 * i];
  }

  /** Reading two bytes as a sample and writing it again gives the bytes. */
  lemma Int16BytesRoundTrip(b: seq<uint8>, at: nat)
    requires at + 2 <= |b|
    ensures Uint16LE(ReadInt16(b, at) as int) == b[at..at + 2]
  {
  }

  /** Decoding the payload returns the original samples. */
  lemma DecodeSampleBytes(samples: seq<int16>)
    ensures DecodeSamples(SampleBytes(samples)) == samples
  {
    var b := SampleBytes(samples);
    forall i | 0 <= i < |samples|
      ensures DecodeSamples(b)[i] == samples[i]
    {
      SampleBytesAt(samples, i);
      Int16RoundTrip(samples[i]);
      assert b[2 * i..2 * i + 2] == Uint16LE(samples[i] as int);
    }
  }

  /** Viewing bytes as samples and writing the samples back, as `pcmToWav`
      does with the `Int16Array` it is given, reproduces the bytes. */
  lemma {:induction false} SampleBytesOfDecode(b: seq<uint8>)
    requires |b| % 2 == 0
    ensures SampleBytes(DecodeSamples(b)) == b
    decreases |b|
  {
    if b != [] {
      var n := |b|;
      var s := DecodeSamples(b);
      var init := b[..n - 2];
      assert s[..|s| - 1] == DecodeSamples(init);
      SampleBytesOfDecode(init);
      Int16BytesRoundTrip(b, n - 2);
      assert b == init + b[n - 2..];
    }
  }

  /** The file is exactly 44 bytes plus the PCM bytes. */
  lemma WavLength(samples: seq<int16>, sampleRate: int)
    ensures |WavBytes(samples, sampleRate)| == HeaderSize + 2 * |samples|
  {
  }

  /** Round trip: as long as the chunk size fits in 32 bits, reading the file
      back gives the sample rate (modulo 2^32, as `setUint32` stores it) and
      the original samples. */
  lemma WavRoundTrip(samples: seq<int16>, sampleRate: int)
    requires 36 + 2 * |samples| < Uint32Modulus
    ensures ParseWav(WavBytes(samples, sampleRate)) == Some(WavInfo(sampleRate % Uint32Modulus, samples))
  {
    var w := WavBytes(samples, sampleRate);
    var h := WavHeader(sampleRate, 2 * |samples|);
    var payload := SampleBytes(samples);
    HeaderIsPcmMono(sampleRate, 2 * |samples|);
    assert w[..HeaderSize] == h;
    assert w[HeaderSize..] == payload;
    assert |w| - HeaderSize == |payload| == 2 * |samples|;
    DecodeSampleBytes(samples);
    assert DecodeSamples(w[HeaderSize..]) == samples;
    assert IsPcmMonoHeader(w[..HeaderSize]) && ReadUint32(w[..HeaderSize], 40) == |w| - HeaderSize;
    assert ParseWav(w) == Some(WavInfo(ReadUint32(h, 24), DecodeSamples(w[HeaderSize..])));
  }

  /** The header `pcmToWav` writes passes the reader's checks and declares
      the sample rate modulo 2^32 and, when it fits, the data length. */
  lemma HeaderIsPcmMono(sampleRate: int, dataLength: nat)
    requires 36 + dataLength < Uint32Modulus
    ensures var h := WavHeader(sampleRate, dataLength);
      IsPcmMonoHeader(h) && ReadUint32(h, 24) == sampleRate % Uint32Modulus && ReadUint32(h, 40) == dataLength
  {
    HeaderFields(sampleRate, dataLength);
    DoubleModulo(sampleRate);
    SmallModulo(dataLength);
    SmallModulo(36 + dataLength);
  }

  lemma SmallModulo(n: int)
    requires 0 <= n < Uint32Modulus
    ensures n % Uint32Modulus == n
  {
  }

  /** Doubling commutes with reduction modulo 2^32. */
  lemma DoubleModulo(n: int)
    ensures ((n % Uint32Modulus) * 2) % Uint32Modulus == (n * 2) % Uint32Modulus
  {
    var q := n / Uint32Modulus;
    assert n * 2 == (n % Uint32Modulus) * 2 + (2 * q) * Uint32Modulus;
  }

  /** The char codes of a binary string built from bytes are those bytes. */
  lemma CharCodesOfBinaryString(b: seq<uint8>)
    ensures CharCodeBytes(BinaryString(b)) == b
  {
  }

  // ---- The data path of speakResponse (script.js:219-222) ----

  /** `\d` without the `u` flag: an ASCII digit. */
  predicate IsDigit(c: char) {
    '0' <= c <= '9'
  }

  /** `/rate=(\d+)/` can match at `p`: "rate=" followed by a digit. */
  predicate RateMatchesAt(s: string, p: nat) {
    p + 6 <= |s| && s[p..p + 5] == "rate=" && IsDigit(s[p + 5])
  }

  /** The leftmost position at or after `from` where the regex matches. */
  function FirstRateMatch(s: string, from: nat): (r: Option<nat>)
    requires from <= |s|
    ensures r.Some? ==> from <= r.value && RateMatchesAt(s, r.value)
    ensures forall q :: from <= q && (r.None? || q < r.value) ==> !RateMatchesAt(s, q)
    decreases |s| - from
  {
    if from + 6 > |s| then None
    else if RateMatchesAt(s, from) then Some(from)
    else FirstRateMatch(s, from + 1)
  }

  /** The greedy `\d+`: the longest prefix of digits. */
  function DigitRun(s: string): (d: string)
    ensures |d| <= |s| && d == s[..|d|]
    ensures forall i :: 0 <= i < |d| ==> IsDigit(d[i])
    ensures |d| == |s| || !IsDigit(s[|d|])
  {
    if s != [] && IsDigit(s[0]) then [s[0]] + DigitRun(s[1..]) else []
  }

  /** `parseInt(d, 10)` of a string of digits. */
  function DecimalValue(d: string): (n: nat)
    requires forall i :: 0 <= i < |d| ==> IsDigit(d[i])
    ensures n < Pow10(|d|)
  {
    if d == [] then 0
    else
      var last := d[|d| - 1];
      assert IsDigit(last);
      DecimalValue(d[..|d| - 1]) * 10 + (last as int - '0' as int)
  }

  /** 10^k. */
  function Pow10(k: nat): (p: nat)
    ensures p >= 1
  {
    if k == 0 then 1 else 10 * Pow10(k - 1)
  }

  /** The ASCII digit of a value below ten. */
  function DigitChar(d: nat): (c: char)
    requires d < 10
    ensures IsDigit(c) && c as int - '0' as int == d
  {
    ('0' as int + d) as char
  }

  /** The decimal numeral of `n`, without leading zeros: what
      `String(n)` gives in JavaScript. */
  function DecimalString(n: nat): (s: string)
    ensures s != [] && (forall i :: 0 <= i < |s| ==> IsDigit(s[i]))
    ensures |s| > 1 ==> s[0] != '0'
    decreases n
  {
    if n < 10 then [DigitChar(n)] else DecimalString(n / 10) + [DigitChar(n % 10)]
  }

  /** `parseInt` inverts the decimal numeral. */
  lemma {:induction false} DecimalRoundTrip(n: nat)
    ensures DecimalValue(DecimalString(n)) == n
    decreases n
  {
    if n >= 10 {
      var d := DecimalString(n);
      assert d[..|d| - 1] == DecimalString(n / 10);
      DecimalRoundTrip(n / 10);
    }
  }

  /** The greedy `\d+` takes a run of digits and stops at the first
      non-digit after it. */
  lemma {:induction false} DigitRunOfDigits(d: string, rest: string)
    requires forall i :: 0 <= i < |d| ==> IsDigit(d[i])
    requires rest == [] || !IsDigit(rest[0])
    ensures DigitRun(d + rest) == d
  {
    if d != [] {
      assert (d + rest)[1..] == d[1..] + rest;
      DigitRunOfDigits(d[1..], rest);
    } else {
      assert d + rest == rest;
    }
  }

  /** `parseInt(mimeType.match(/rate=(\d+)/)[1], 10)`; `None` where there is
      no match and indexing the null result throws. Otherwise the value is
      that of the longest digit run after the leftmost "rate=". */
  function ParseRate(mimeType: string): (r: Option<nat>)
    ensures r.Some? <==> exists p :: RateMatchesAt(mimeType, p)
    ensures forall p: nat :: RateMatchesAt(mimeType, p) && (forall q: nat :: q < p ==> !RateMatchesAt(mimeType, q)) ==>
              r == Some(DecimalValue(DigitRun(mimeType[p + 5..])))
  {
    match FirstRateMatch(mimeType, 0)
    case None => None
    case Some(p) => Some(DecimalValue(DigitRun(mimeType[p + 5..])))
  }

  /** A MIME type whose leftmost "rate=" is followed by the numeral of `n`
      and then a non-digit, or nothing, declares rate `n`. */
  lemma ParseRateReadsNumeral(mimeType: string, p: nat, n: nat, rest: string)
    requires RateMatchesAt(mimeType, p)
    requires forall q :: 0 <= q < p ==> !RateMatchesAt(mimeType, q)
    requires mimeType[p + 5..] == DecimalString(n) + rest
    requires rest == [] || !IsDigit(rest[0])
    ensures ParseRate(mimeType) == Some(n)
  {
    DigitRunOfDigits(DecimalString(n), rest);
    DecimalRoundTrip(n);
  }

  /** The WAV file speakResponse builds from the reply's MIME type and the
      binary string `atob` made of its audio data; `None` where a step
      throws (no rate in the MIME type, an odd number of bytes). */
  function SpeechWav(mimeType: string, binaryString: string): Option<seq<uint8>> {
    match ParseRate(mimeType)
    case None => None
    case Some(rate) =>
      match Int16View(CharCodeBytes(binaryString))
      case None => None
      case Some(samples) => Some(WavBytes(samples, rate))
  }

  /** The WAV file carries the server's PCM bytes unchanged after its 44-byte
      header, declares the parsed rate, and fails only on a missing rate or
      an odd byte count. */
  lemma SpeechWavCarriesPcm(mimeType: string, binaryString: string)
    ensures SpeechWav(mimeType, binaryString).Some?
            <==> ParseRate(mimeType).Some? && |binaryString| % 2 == 0
    ensures SpeechWav(mimeType, binaryString).Some? ==>
      var w := SpeechWav(mimeType, binaryString).value;
      && |w| == HeaderSize + |binaryString|
      && w[HeaderSize..] == CharCodeBytes(binaryString)
      && ReadUint32(w, 24) == ParseRate(mimeType).value % Uint32Modulus
      && ReadUint32(w, 40) == |binaryString| % Uint32Modulus
  {
    if SpeechWav(mimeType, binaryString).Some? {
      var bytes := CharCodeBytes(binaryString);
      var samples := Int16View(bytes).value;
      var rate := ParseRate(mimeType).value;
      var h := WavHeader(rate, 2 * |samples|);
      var w := h + SampleBytes(samples);
      assert SpeechWav(mimeType, binaryString) == Some(w);
      SampleBytesOfDecode(bytes);
      HeaderFields(rate, 2 * |samples|);
      ReadsOfConcat(h, SampleBytes(samples), 24);
      ReadsOfConcat(h, SampleBytes(samples), 40);
    }
  }

  /** "24000" reads as 24000. */
  lemma Decimal24000()
    ensures DigitRun("24000") == "24000" && DecimalValue("24000") == 24000
  {
    assert DigitRun("24000") == "24000";
    assert "24000"[..4] == "2400" && "2400"[..3] == "240" && "240"[..2] == "24" && "24"[..1] == "2";
    assert DecimalValue("2") == 2;
    assert DecimalValue("24") == 24;
    assert DecimalValue("240") == 240;
    assert DecimalValue("2400") == 2400;
  }

  /** In "audio/pcm;rate=24000" the regex first matches at offset 10. */
  lemma FirstRateMatch24000()
    ensures FirstRateMatch("audio/pcm;rate=24000", 0) == Some(10)
  {
    var m := "audio/pcm;rate=24000";
    assert !RateMatchesAt(m, 0) && !RateMatchesAt(m, 1) && !RateMatchesAt(m, 2);
    assert !RateMatchesAt(m, 3) && !RateMatchesAt(m, 4) && !RateMatchesAt(m, 5);
    assert !RateMatchesAt(m, 6) && !RateMatchesAt(m, 7) && !RateMatchesAt(m, 8);
    assert !RateMatchesAt(m, 9) && RateMatchesAt(m, 10);
  }

  /** The rate the speech model reports, "audio/pcm;rate=24000", parses to
      24000. */
  lemma ParseRate24000()
    ensures ParseRate("audio/pcm;rate=24000") == Some(24000)
  {
    var m := "audio/pcm;rate=24000";
    FirstRateMatch24000();
    assert m[15..] == "24000";
    Decimal24000();
  }

  /** A reply whose MIME type gives 24 kHz, with 48000 samples (96000 bytes),
      becomes a WAV file declaring rate 24000, byte rate 48000 and data length
      96000. */
  lemma Speech24kHz(mimeType: string, binaryString: string)
    requires ParseRate(mimeType) == Some(24000)
    requires |binaryString| == 96000
    ensures SpeechWav(mimeType, binaryString).Some?
    ensures var w := SpeechWav(mimeType, binaryString).value;
      && ReadUint32(w, 24) == 24000 && ReadUint32(w, 28) == 48000 && ReadUint32(w, 40) == 96000
  {
    var rate := ParseRate(mimeType).value;
    var samples := Int16View(CharCodeBytes(binaryString)).value;
    var h := WavHeader(rate, 2 * |samples|);
    assert SpeechWav(mimeType, binaryString) == Some(h + SampleBytes(samples));
    HeaderFields(rate, 2 * |samples|);
    ReadsOfConcat(h, SampleBytes(samples), 24);
    ReadsOfConcat(h, SampleBytes(samples), 28);
    ReadsOfConcat(h, SampleBytes(samples), 40);
  }

  /** The scenario with the MIME type the speech model reports. */
  lemma Speech24kHzScenario(binaryString: string)
    requires |binaryString| == 96000
    ensures SpeechWav("audio/pcm;rate=24000", binaryString).Some?
    ensures var w := SpeechWav("audio/pcm;rate=24000", binaryString).value;
      && ReadUint32(w, 24) == 24000 && ReadUint32(w, 28) == 48000 && ReadUint32(w, 40) == 96000
  {
    ParseRate24000();
    Speech24kHz("audio/pcm;rate=24000", binaryString);
  }

  // ---- The mutating code ----

  /** `writeString` (script.js:36-40): stores the char codes of `s` at the
      cursor and advances it. */
  method WriteString(view: array<uint8>, pos: nat, s: string) returns (next: nat)
    requires pos + |s| <= view.Length
    modifies view
    ensures next == pos + |s|
    ensures view[..next] == old(view[..pos]) + CharCodeBytes(s)
    ensures view[next..] == old(view[next..])
  {
    next := pos;
    for i := 0 to |s|
      invariant next == pos + i
      invariant view[..next] == old(view[..pos]) + CharCodeBytes(s[..i])
      invariant view[pos + |s|..] == old(view[pos + |s|..])
    {
      view[next] := ToUint8(s[i] as int);
      assert CharCodeBytes(s[..i + 1]) == CharCodeBytes(s[..i]) + [ToUint8(s[i] as int)];
      next := next + 1;
    }
    assert s[..|s|] == s;
  }

  /** `writeUint32` (script.js:42-45). */
  method WriteUint32(view: array<uint8>, pos: nat, d: int) returns (next: nat)
    requires pos + 4 <= view.Length
    modifies view
    ensures next == pos + 4
    ensures view[..next] == old(view[..pos]) + Uint32LE(d)
    ensures view[next..] == old(view[next..])
  {
    var b := Uint32LE(d);
    view[pos], view[pos + 1], view[pos + 2], view[pos + 3] := b[0], b[1], b[2], b[3];
    next := pos + 4;
  }

  /** `writeUint16` (script.js:47-50). */
  method WriteUint16(view: array<uint8>, pos: nat, d: int) returns (next: nat)
    requires pos + 2 <= view.Length
    modifies view
    ensures next == pos + 2
    ensures view[..next] == old(view[..pos]) + Uint16LE(d)
    ensures view[next..] == old(view[next..])
  {
    var b := Uint16LE(d);
    view[pos], view[pos + 1] := b[0], b[1];
    next := pos + 2;
  }

  /** The header writes of script.js:52-64, at the start of `view`. */
  method WriteHeader(view: array<uint8>, sampleRate: int, byteLength: int) returns (pos: nat)
    requires HeaderSize <= view.Length
    modifies view
    ensures pos == HeaderSize
    ensures view[..pos] == WavHeader(sampleRate, byteLength)
    ensures view[pos..] == old(view[pos..])
  {
    ghost var after := view[HeaderSize..];
    pos := WriteRiffDescriptor(view, 0, byteLength);
    ghost var riff := view[..pos];
    pos := WriteFmtFormat(view, pos);
    ghost var format := view[..pos];
    assert format == riff + FmtFormat();
    assert view[HeaderSize..] == after;
    pos := WriteFmtRates(view, pos, sampleRate);
    ghost var rates := view[..pos];
    assert rates == format + FmtRates(sampleRate);
    assert view[HeaderSize..] == after;
    pos := WriteFmtBlock(view, pos);
    ghost var block := view[..pos];
    assert block == rates + FmtBlock();
    assert view[HeaderSize..] == after;
    pos := WriteDataChunkHeader(view, pos, byteLength);
    assert view[..pos] == block + DataChunkHeader(byteLength);
  }

  /** script.js:52-54. */
  method WriteRiffDescriptor(view: array<uint8>, pos: nat, byteLength: int) returns (next: nat)
    requires pos + 12 <= view.Length
    modifies view
    ensures next == pos + 12
    ensures view[..next] == old(view[..pos]) + RiffDescriptor(byteLength)
    ensures view[next..] == old(view[next..])
  {
    ghost var before := view[..pos];
    next := WriteString(view, pos, "RIFF");
    assert view[..next] == before + CharCodeBytes("RIFF");
    next := WriteUint32(view, next, 36 + byteLength);
    assert view[..next] == before + CharCodeBytes("RIFF") + Uint32LE(36 + byteLength);
    next := WriteString(view, next, "WAVE");
  }

  /** script.js:55-58. */
  method WriteFmtFormat(view: array<uint8>, pos: nat) returns (next: nat)
    requires pos + 12 <= view.Length
    modifies view
    ensures next == pos + 12
    ensures view[..next] == old(view[..pos]) + FmtFormat()
    ensures view[next..] == old(view[next..])
  {
    ghost var before := view[..pos];
    ghost var after := view[pos + 12..];
    next := WriteString(view, pos, "fmt ");
    assert view[..next] == before + CharCodeBytes("fmt ");
    assert view[pos + 12..] == after;
    next := WriteUint32(view, next, 16);
    assert view[..next] == before + CharCodeBytes("fmt ") + Uint32LE(16);
    assert view[pos + 12..] == after;
    next := WriteUint16(view, next, 1);
    assert view[..next] == before + CharCodeBytes("fmt ") + Uint32LE(16) + Uint16LE(1);
    assert view[pos + 12..] == after;
    next := WriteUint16(view, next, 1); // mono
  }

  /** script.js:59-60. */
  method WriteFmtRates(view: array<uint8>, pos: nat, sampleRate: int) returns (next: nat)
    requires pos + 8 <= view.Length
    modifies view
    ensures next == pos + 8
    ensures view[..next] == old(view[..pos]) + FmtRates(sampleRate)
    ensures view[next..] == old(view[next..])
  {
    ghost var before := view[..pos];
    next := WriteUint32(view, pos, sampleRate);
    assert view[..next] == before + Uint32LE(sampleRate);
    next := WriteUint32(view, next, sampleRate * 2); // byte rate
  }

  /** script.js:61-62. */
  method WriteFmtBlock(view: array<uint8>, pos: nat) returns (next: nat)
    requires pos + 4 <= view.Length
    modifies view
    ensures next == pos + 4
    ensures view[..next] == old(view[..pos]) + FmtBlock()
    ensures view[next..] == old(view[next..])
  {
    ghost var before := view[..pos];
    next := WriteUint16(view, pos, 2); // block align
    assert view[..next] == before + Uint16LE(2);
    next := WriteUint16(view, next, 16); // bits per sample
  }

  /** script.js:63-64. */
  method WriteDataChunkHeader(view: array<uint8>, pos: nat, byteLength: int) returns (next: nat)
    requires pos + 8 <= view.Length
    modifies view
    ensures next == pos + 8
    ensures view[..next] == old(view[..pos]) + DataChunkHeader(byteLength)
    ensures view[next..] == old(view[next..])
  {
    ghost var before := view[..pos];
    next := WriteString(view, pos, "data");
    assert view[..next] == before + CharCodeBytes("data");
    next := WriteUint32(view, next, byteLength);
  }

  /** `pcmToWav` (script.js:30-73): a fresh buffer of 44 + 2n bytes holding
      the header and then every sample, little-endian. */
  method PcmToWav(pcm16: array<int16>, sampleRate: int) returns (wav: array<uint8>)
    ensures fresh(wav)
    ensures wav[..] == WavBytes(pcm16[..], sampleRate)
  {
    var byteLength := 2 * pcm16.Length;
    wav := new uint8[HeaderSize + byteLength];
    var pos := WriteHeader(wav, sampleRate, byteLength);
    ghost var header := WavHeader(sampleRate, byteLength);
    assert wav[..pos] == header;

    var i := 0;
    while i < pcm16.Length
      invariant 0 <= i <= pcm16.Length
      invariant pos == HeaderSize + 2 * i
      invariant wav[..pos] == header + SampleBytes(pcm16[..i])
    {
      // setInt16 stores the same two bytes as setUint16
      pos := WriteUint16(wav, pos, pcm16[i] as int);
      assert pcm16[..i + 1][..i] == pcm16[..i];
      i := i + 1;
    }
    assert pcm16[..pcm16.Length] == pcm16[..];
    assert wav[..pos] == wav[..];
  }

  /** `base64ToArrayBuffer` (script.js:75-83). `atob` is a parameter: it
      returns the binary string of a well-formed base64 text and `None` where
      the browser's `atob` throws. On success the buffer is fresh, as long as
      the binary string, and byte i is char code i. */
  method Base64ToArrayBuffer(atob: string -> Option<string>, base64: string) returns (buffer: Option<array<uint8>>)
    ensures buffer.None? <==> atob(base64).None?
    ensures buffer.Some? ==> fresh(buffer.value) && buffer.value[..] == CharCodeBytes(atob(base64).value)
  {
    var decoded := atob(base64);
    if decoded.None? {
      return None;
    }
    var binaryString := decoded.value;
    var len := |binaryString|;
    var bytes := new uint8[len];
    for i := 0 to len
      invariant forall k :: 0 <= k < i ==> bytes[k] == ToUint8(binaryString[k] as int)
    {
      bytes[i] := ToUint8(binaryString[i] as int);
    }
    return Some(bytes);
  }
}
