/**
 * The counter of the IncrementCounter ritual (src/fw/main.cpp): an unsigned
 * 32-bit value stored as four big-endian bytes, incremented by one with
 * uint32_t wrap-around, and the LED/tone feedback derived from the new value.
 */
module Counter {
  import opened Hal

  const U32: nat := 0x1_0000_0000

  type u32 = n: int | 0 <= n < U32

  /** The four stored bytes, most significant first, read as one number. */
  function Decode(b: seq<byte>): (n: u32)
    requires |b| == 4
    ensures n / 0x100_0000 == b[0]
    ensures n % 0x100 == b[3]
  {
    (b[0] as int) * 0x100_0000 + (b[1] as int) * 0x1_0000 + (b[2] as int) * 0x100 + b[3] as int
  }

  /** (n >> 24) & 0xFF, (n >> 16) & 0xFF, (n >> 8) & 0xFF, n & 0xFF */
  function Encode(n: u32): (b: seq<byte>)
    ensures |b| == 4
  {
    [n / 0x100_0000 % 0x100, n / 0x1_0000 % 0x100, n / 0x100 % 0x100, n % 0x100]
  }

  lemma DecodeEncode(n: u32)
    ensures Decode(Encode(n)) == n
  {
    var q1, r0 := n / 0x100, n % 0x100;
    var q2, r1 := q1 / 0x100, q1 % 0x100;
    var q3, r2 := q2 / 0x100, q2 % 0x100;
    assert n == q2 * 0x1_0000 + (r1 * 0x100 + r0);
    assert n / 0x1_0000 == q2;
    assert n == q3 * 0x100_0000 + (r2 * 0x1_0000 + r1 * 0x100 + r0);
    assert n / 0x100_0000 == q3;
    assert Encode(n) == [q3, r2, r1, r0];
  }

  lemma EncodeDecode(b: seq<byte>)
    requires |b| == 4
    ensures Encode(Decode(b)) == b
  {
    var n := Decode(b);
    var b0, b1, b2, b3 := b[0] as int, b[1] as int, b[2] as int, b[3] as int;
    var h1 := b0 * 0x100 + b1;
    var h2 := h1 * 0x100 + b2;
    assert n == h2 * 0x100 + b3;
    assert n == h1 * 0x1_0000 + (b2 * 0x100 + b3);
    assert n == b0 * 0x100_0000 + (b1 * 0x1_0000 + b2 * 0x100 + b3);
    Split(h2, b3, 0x100);
    Split(h1, b2 * 0x100 + b3, 0x1_0000);
    Split(b0, b1 * 0x1_0000 + b2 * 0x100 + b3, 0x100_0000);
    Split(h1, b2, 0x100);
    Split(b0, b1, 0x100);
  }

  /** Euclidean division undoes a place-value split. */
  lemma Split(high: nat, low: nat, base: nat)
    requires base == 0x100 || base == 0x1_0000 || base == 0x100_0000
    requires low < base
    ensures (high * base + low) / base == high && (high * base + low) % base == low
  {
    if base == 0x100 {
      assert (high * 0x100 + low) / 0x100 == high;
    } else if base == 0x1_0000 {
      assert (high * 0x1_0000 + low) / 0x1_0000 == high;
    } else {
      assert (high * 0x100_0000 + low) / 0x100_0000 == high;
    }
  }

  /** current_count++ on a uint32_t. */
  function Next(n: u32): (m: u32)
    ensures n < U32 - 1 ==> m == n + 1
    ensures n == U32 - 1 ==> m == 0
  {
    (n + 1) % U32
  }

  /** The number of LED blinks after an increment. */
  function BlinkCount(n: u32): (times: nat)
    ensures times < 10 && times == n % 10
  {
    n % 10
  }

  /** The buzzer frequency after an increment. */
  function ToneHz(n: u32): (hz: u16)
    ensures 1000 <= hz < 1500 && hz - 1000 == n % 500
  {
    1000 + n % 500
  }

  /**
   * What the zero-initialised four-byte buffer holds after storage_load:
   * the first loaded bytes, the rest still zero.
   */
  function LoadedBuffer(loaded: seq<byte>): (b: seq<byte>)
    requires |loaded| <= 4
    ensures |b| == 4 && b[..|loaded|] == loaded
    ensures forall i :: |loaded| <= i < 4 ==> b[i] == 0
  {
    loaded + seq(4 - |loaded|, _ => 0)
  }

  /** The count the ritual reads under `key`: 0 when the key is absent. */
  function StoredCount(store: map<string, Blob>, key: string): (n: u32)
    ensures key !in store ==> n == 0
  {
    var len := LoadedLength(store, key, 4);
    Decode(LoadedBuffer(Fetch(store, key)[..len]))
  }

  /** A stored four-byte encoding is read back as the number it encodes. */
  lemma StoredCountOfEncoding(store: map<string, Blob>, key: string, n: u32)
    requires key in store && store[key] == Raw(Encode(n))
    ensures StoredCount(store, key) == n
  {
    assert Fetch(store, key)[..4] == Encode(n);
    assert LoadedBuffer(Encode(n)) == Encode(n);
    DecodeEncode(n);
  }

  /** The store after one increment of the counter under `key`. */
  function Increment(store: map<string, Blob>, key: string): (s: map<string, Blob>)
    ensures key in s && s[key] == Raw(Encode(Next(StoredCount(store, key))))
    ensures s == store[key := s[key]]
  {
    store[key := Raw(Encode(Next(StoredCount(store, key))))]
  }

  lemma NextOfResidue(c: nat)
    ensures Next(c % U32) == (c + 1) % U32
  {
  }

  /** An increment moves the stored count on by one. */
  lemma StoredCountIncrement(store: map<string, Blob>, key: string)
    ensures StoredCount(Increment(store, key), key) == Next(StoredCount(store, key))
  {
    var s := Increment(store, key);
    StoredCountOfEncoding(s, key, Next(StoredCount(store, key)));
  }

  function IncrementTimes(store: map<string, Blob>, key: string, count: nat): map<string, Blob>
  {
    if count == 0 then store else Increment(IncrementTimes(store, key, count - 1), key)
  }

  /** Starting from an absent key, N increments leave N (mod 2^32) stored big-endian. */
  lemma {:induction false} CountsActivations(store: map<string, Blob>, key: string, count: nat)
    requires key !in store
    ensures count > 0 ==> var s := IncrementTimes(store, key, count);
                          key in s && s[key] == Raw(Encode(count % U32))
    ensures StoredCount(IncrementTimes(store, key, count), key) == count % U32
  {
    if count > 0 {
      var prev := IncrementTimes(store, key, count - 1);
      var s := Increment(prev, key);
      assert s == IncrementTimes(store, key, count);
      assert key in s && s[key] == Raw(Encode(count % U32)) by {
        CountsActivations(store, key, count - 1);
        NextOfResidue(count - 1);
      }
      assert StoredCount(s, key) == count % U32 by {
        StoredCountOfEncoding(s, key, count % U32);
      }
    }
  }
}
