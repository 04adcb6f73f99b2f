/**
 * CircularBuffer.swift: sizing a TPCircularBuffer from a sample rate, and
 * creating and destroying the foreign buffer handle.
 *
 * Two Swift operators are written out because Dafny's differ: `Int(x)` of a
 * `Float64` truncates toward zero (Dafny's `Floor` rounds down), and `/` on
 * `Int` truncates toward zero (Dafny's `/` is Euclidean).
 */
module CircularBuffer {
  /** Duration of one block in milliseconds (a global `var`, never reassigned). */
  const BlockDurationMs: int := 10
  /** Number of blocks the buffer holds. */
  const MaxBlocksPerBuffer: int := 3
  /** Bytes per sample that `calculateSize` asks for: one 32-bit float. */
  const SizeBytesPerSample: int := 4

  const Int32Min: int := -0x8000_0000
  const Int32Max: int := 0x7FFF_FFFF

  /** Swift's `Int(x)` for a finite `Float64`: drop the fraction, toward zero. */
  function TruncateToInt(x: real): (n: int)
    ensures 0.0 <= x ==> 0 <= n && n as real <= x < n as real + 1.0
    ensures x < 0.0 ==> n <= 0 && n as real - 1.0 < x <= n as real
  {
    if x >= 0.0 then x.Floor else -((-x).Floor)
  }

  /** Swift's `a / d` on `Int` for a positive divisor: the quotient truncated toward zero. */
  function TruncatedDiv(a: int, d: int): (q: int)
    requires d > 0
    ensures 0 <= a ==> 0 <= q && q * d <= a < q * d + d
    ensures a < 0 ==> q <= 0 && q * d - d < a <= q * d
  {
    if a >= 0 then a / d else -((-a) / d)
  }

  /** `calculateSamplesPerBlock`: samples in one block at `sampleRate`. */
  function CalculateSamplesPerBlock(sampleRate: real): (n: int)
    ensures 0.0 <= sampleRate ==> 0 <= n
    ensures sampleRate <= 0.0 ==> n <= 0
  {
    TruncatedDiv(TruncateToInt(sampleRate) * BlockDurationMs, 1000)
  }

  /** `calculateBytesPerBlock`: bytes in one block of `bytesPerSample`-byte samples. */
  function CalculateBytesPerBlock(sampleRate: real, bytesPerSample: int): (bytes: int)
    ensures 0.0 <= sampleRate && 0 <= bytesPerSample ==> 0 <= bytes
    ensures sampleRate <= 0.0 && 0 <= bytesPerSample ==> bytes <= 0
  {
    CalculateSamplesPerBlock(sampleRate) * bytesPerSample
  }

  /** `calculateSize`: the byte capacity asked of the ring buffer. */
  function CalculateSize(sampleRate: real): (size: int)
    ensures 0.0 <= sampleRate ==> 0 <= size
    ensures sampleRate <= 0.0 ==> size <= 0
  {
    CalculateBytesPerBlock(sampleRate, SizeBytesPerSample) * MaxBlocksPerBuffer
  }

  /**
   * Truncating the rate and then the integer quotient gives the same number
   * of samples as truncating the exact quotient rate x 10 ms / 1000 ms: the
   * two roundings never compound. For a non-negative rate this is the floor.
   */
  lemma SamplesPerBlockTruncatesExactQuotient(sampleRate: real)
    ensures CalculateSamplesPerBlock(sampleRate)
         == TruncateToInt(sampleRate * BlockDurationMs as real / 1000.0)
    ensures 0.0 <= sampleRate ==>
      CalculateSamplesPerBlock(sampleRate) == (sampleRate * BlockDurationMs as real / 1000.0).Floor
  {
    var n := TruncateToInt(sampleRate);
    var q := CalculateSamplesPerBlock(sampleRate);
    var x := sampleRate * BlockDurationMs as real / 1000.0;
    assert x == sampleRate / 100.0;
    if sampleRate >= 0.0 {
      assert q * 1000 <= n * 10 < q * 1000 + 1000;
      assert q * 100 <= n <= q * 100 + 99;
      assert q as real <= x < q as real + 1.0;
    } else {
      assert q * 1000 - 1000 < n * 10 <= q * 1000;
      assert q * 100 - 99 <= n <= q * 100;
      assert q as real - 1.0 < x <= q as real;
    }
  }

  /** The buffer always holds a whole number of 12-byte units: 4-byte samples times 3 blocks. */
  lemma SizeIsTwelveBytesPerSample(sampleRate: real)
    ensures CalculateBytesPerBlock(sampleRate, SizeBytesPerSample) == 4 * CalculateSamplesPerBlock(sampleRate)
    ensures CalculateSize(sampleRate) == 12 * CalculateSamplesPerBlock(sampleRate)
    ensures CalculateSize(sampleRate) % 12 == 0
  {
  }

  /** The worked values: 48 kHz gives 480 samples, 1920 bytes per block, 5760 bytes; 44.1 kHz gives 5292 bytes. */
  lemma SizeAtCommonRates()
    ensures CalculateSamplesPerBlock(48000.0) == 480
    ensures CalculateBytesPerBlock(48000.0, 4) == 1920
    ensures CalculateSize(48000.0) == 5760
    ensures CalculateSamplesPerBlock(44100.0) == 441
    ensures CalculateSize(44100.0) == 5292
  {
    assert TruncateToInt(48000.0) == 48000;
    assert TruncateToInt(44100.0) == 44100;
  }

  /**
   * A rate strictly between -100 and 100 Hz, among them the interface's
   * "no device" sentinel -1, gives no samples and a zero-byte buffer
   * (Euclidean division would have given -1 sample for the sentinel).
   */
  lemma SizeOfSmallRatesIsZero(sampleRate: real)
    requires -100.0 < sampleRate < 100.0
    ensures CalculateSamplesPerBlock(sampleRate) == 0
    ensures CalculateSize(sampleRate) == 0
  {
    var n := TruncateToInt(sampleRate);
    assert -99 <= n <= 99;
  }

  /** Truncation toward zero is symmetric: a negated rate gives the negated size. */
  lemma SizeOfNegatedRate(sampleRate: real)
    ensures CalculateSize(-sampleRate) == -CalculateSize(sampleRate)
  {
    if sampleRate > 0.0 {
      assert TruncateToInt(-sampleRate) == -TruncateToInt(sampleRate);
    } else if sampleRate < 0.0 {
      assert TruncateToInt(-sampleRate) == -TruncateToInt(sampleRate);
    }
  }

  lemma TruncateToIntMonotone(x: real, y: real)
    requires x <= y
    ensures TruncateToInt(x) <= TruncateToInt(y)
  {
  }

  lemma TruncatedDivMonotone(a: int, b: int, d: int)
    requires a <= b && d > 0
    ensures TruncatedDiv(a, d) <= TruncatedDiv(b, d)
  {
    var qa, qb := TruncatedDiv(a, d), TruncatedDiv(b, d);
    if 0 <= a {
      // qa * d <= a <= b < qb * d + d, so qa < qb + 1
      if qb + 1 <= qa { MulMonotone(qb + 1, qa, d); }
    } else if b < 0 {
      // qa * d - d < a <= b <= qb * d, so qa - 1 < qb
      if qb + 1 <= qa { MulMonotone(qb + 1, qa, d); }
    }
  }

  lemma MulMonotone(a: int, b: int, d: int)
    requires a <= b && d > 0
    ensures a * d <= b * d
  {
  }

  /** A faster clock never gets a smaller buffer. */
  lemma SizeMonotone(r1: real, r2: real)
    requires r1 <= r2
    ensures CalculateSamplesPerBlock(r1) <= CalculateSamplesPerBlock(r2)
    ensures CalculateSize(r1) <= CalculateSize(r2)
  {
    TruncateToIntMonotone(r1, r2);
    TruncatedDivMonotone(TruncateToInt(r1) * BlockDurationMs, TruncateToInt(r2) * BlockDurationMs, 1000);
  }

  /** The TPCircularBuffer object that `CircularBufferCreate` allocates. */
  class CircularBufferHandle {
    /** The `length` passed to `CircularBufferCreate`. */
    const length: int
    /** The `atomic` flag passed to `CircularBufferCreate`. */
    const atomic: bool

    constructor (length: int, atomic: bool)
      ensures this.length == length && this.atomic == atomic
    {
      this.length := length;
      this.atomic := atomic;
    }
  }

  /** The foreign allocator behind `CircularBufferCreate`/`CircularBufferDestroy`. */
  class BufferHeap {
    /** Handles created and not yet destroyed. */
    ghost var live: set<CircularBufferHandle>

    constructor ()
      ensures live == {}
    {
      live := {};
    }
  }

  /**
   * `makeCircularBuffer`: one new buffer of exactly `CalculateSize` bytes,
   * atomic. `Int32(...)` traps when the size does not fit, so the caller must
   * keep the rate in range (which also keeps `Int(sampleRate) * 10` in range).
   */
  method MakeCircularBuffer(heap: BufferHeap, sampleRate: real) returns (buffer: CircularBufferHandle)
    requires Int32Min <= CalculateSize(sampleRate) <= Int32Max
    modifies heap
    ensures fresh(buffer)
    ensures buffer.length == CalculateSize(sampleRate) && buffer.atomic
    ensures heap.live == old(heap.live) + {buffer}
  {
    buffer := new CircularBufferHandle(CalculateSize(sampleRate), true);
    heap.live := heap.live + {buffer};
  }

  /**
   * `destroy`: a nil handle is ignored; otherwise exactly that live handle
   * is released (releasing it twice would be a double free).
   */
  method Destroy(heap: BufferHeap, buffer: CircularBufferHandle?)
    requires buffer != null ==> buffer in heap.live
    modifies heap
    ensures buffer == null ==> heap.live == old(heap.live)
    ensures buffer != null ==> heap.live == old(heap.live) - {buffer} && buffer !in heap.live
  {
    if buffer != null {
      heap.live := heap.live - {buffer};
    }
  }
}
