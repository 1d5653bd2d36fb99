/** 16-bit little-endian samples as numpy reads and writes them. */
module PcmSamples {
  import opened Bytes

  /** One "<i2" sample. */
  function Sample(lo: byte, hi: byte): (x: int)
    ensures -32768 <= x < 32768
  {
    var n := lo as int + 256 * hi as int;
    if n >= 32768 then n - 65536 else n
  }

  function Samples(pcm: bytes): (xs: seq<int>)
    ensures |xs| == |pcm| / 2 && InRange(xs)
  {
    seq(|pcm| / 2, i requires 0 <= i < |pcm| / 2 => Sample(pcm[2 * i], pcm[2 * i + 1]))
  }

  predicate InRange(xs: seq<int>) {
    forall i :: 0 <= i < |xs| ==> -32768 <= xs[i] < 32768
  }

  function Low(x: int): byte {
    (x % 256) as byte
  }

  function High(x: int): byte {
    (x / 256 % 256) as byte
  }

  /** `astype("<i2").tobytes()` */
  function Pcm(xs: seq<int>): (pcm: bytes)
    ensures |pcm| == 2 * |xs|
  {
    seq(2 * |xs|, i requires 0 <= i < 2 * |xs| => if i % 2 == 0 then Low(xs[i / 2]) else High(xs[i / 2]))
  }

  /** Samples in range survive the trip through bytes. */
  lemma PcmRoundTrip(xs: seq<int>)
    requires InRange(xs)
    ensures Samples(Pcm(xs)) == xs
  {
    forall i | 0 <= i < |xs| ensures Samples(Pcm(xs))[i] == xs[i] {
      assert Pcm(xs)[2 * i] == Low(xs[i]) && Pcm(xs)[2 * i + 1] == High(xs[i]);
      SampleRoundTrip(xs[i]);
    }
  }

  lemma SampleRoundTrip(x: int)
    requires -32768 <= x < 32768
    ensures Sample(Low(x), High(x)) == x
  {
    assert x == 256 * (x / 256) + x % 256;
  }

  /** The 16-bit sample nearest to x. */
  predicate Nearest(x: int, r: int) {
    -32768 <= r <= 32767 && (x > 32767 ==> r == 32767) && (x < -32768 ==> r == -32768)
    && (-32768 <= x <= 32767 ==> r == x)
  }

  function Clip(x: int): int {
    if x < -32768 then -32768 else if x > 32767 then 32767 else x
  }

  lemma ClipNearest(x: int)
    ensures Nearest(x, Clip(x))
  {
  }

  function Clipped(xs: seq<int>): (r: seq<int>)
    ensures |r| == |xs| && InRange(r)
  {
    seq(|xs|, i requires 0 <= i < |xs| => Clip(xs[i]))
  }

  /** Resampled if the rates differ. */
  function AtRate(resample: (bytes, nat, nat) -> bytes, pcm: bytes, given: nat, wanted: nat): bytes {
    if given != wanted then resample(pcm, given, wanted) else pcm
  }
}
