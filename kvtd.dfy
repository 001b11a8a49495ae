/** The `(key, value, time, diff)` changelog generator (src/kvtd.rs): one
    table whose rows are computed from their position alone. */
module Kvtd {
  import opened Base
  import opened Col

  /** Characters in a key: 64 bits at four bits per hex digit. */
  const KEY_BYTES: nat := 16
  /** The odd multiplier of the value hash chain. */
  const LARGE_PRIME: nat := 18_446_744_073_709_551_557
  const HEX_LOOKUP: string := "0123456789abcdef"
  /** `0xf000_0000_0000_0000 >> 60` keeps the top nibble; for a 64-bit value
      this is division by 2^60. */
  const TOP_NIBBLE_UNIT: nat := 0x1000_0000_0000_0000

  const NAME: string := "kvtd"

  datatype KvtdConfig = KvtdConfig(
    /** Bytes in the value column of each row. */
    valBytes: usize,
    /** Rows in all batches together. */
    numRows: usize,
    /** Most rows in any one batch. */
    maxRowsPerBatch: usize)

  // ---------------------------------------------------------------------------
  // Batching

  /** `(num_rows + max_rows_per_batch - 1) / max_rows_per_batch`: the fewest
      batches of at most `max_rows_per_batch` rows that hold every row. */
  function NumBatches(config: KvtdConfig): (n: nat)
    requires config.maxRowsPerBatch > 0
    ensures n * config.maxRowsPerBatch as nat >= config.numRows as nat
    ensures n > 0 ==> (n - 1) * config.maxRowsPerBatch as nat < config.numRows as nat
  {
    var rows, m := config.numRows as nat, config.maxRowsPerBatch as nat;
    var n := (rows + m - 1) / m;
    DivModUnique(rows + m - 1, m, n, (rows + m - 1) % m);
    n
  }

  function Min(a: nat, b: nat): nat
  {
    if a <= b then a else b
  }

  /** The number of rows batch `idx` holds: its share of
      `[idx * max, min(idx * max + max, num_rows))`, or 0 when that range is
      empty (`saturating_sub`). */
  function BatchLen(config: KvtdConfig, idx: nat): (len: nat)
    ensures len <= config.maxRowsPerBatch as nat
    ensures len <= config.numRows as nat
  {
    var rowStart := idx * config.maxRowsPerBatch as nat;
    var rowEnd := Min(rowStart + config.maxRowsPerBatch as nat, config.numRows as nat);
    if rowEnd >= rowStart then rowEnd - rowStart else 0
  }

  /** A batch holds rows exactly when its index is below `NumBatches`; all
      but the last valid batch are full. */
  lemma BatchLenCases(config: KvtdConfig, idx: nat)
    requires config.maxRowsPerBatch > 0
    ensures idx >= NumBatches(config) <==> BatchLen(config, idx) == 0
    ensures idx < NumBatches(config) ==>
      BatchLen(config, idx) == Min(config.maxRowsPerBatch as nat,
                                   config.numRows as nat - idx * config.maxRowsPerBatch as nat)
  {
    var rows, m, n := config.numRows as nat, config.maxRowsPerBatch as nat, NumBatches(config);
    if idx >= n {
      assert idx * m >= n * m by { MulMonotone(n, idx, m); }
    } else {
      assert idx * m <= (n - 1) * m by { MulMonotone(idx, n - 1, m); }
    }
  }

  /** The rows held by batches `0..k`. */
  function RowsBefore(config: KvtdConfig, k: nat): nat
  {
    if k == 0 then 0 else RowsBefore(config, k - 1) + BatchLen(config, k - 1)
  }

  /** The first `k` batches hold the first `min(k * max, num_rows)` rows. */
  lemma {:induction false} RowsBeforeIsPrefix(config: KvtdConfig, k: nat)
    ensures RowsBefore(config, k) == Min(k * config.maxRowsPerBatch as nat, config.numRows as nat)
  {
    if k > 0 {
      RowsBeforeIsPrefix(config, k - 1);
      var m := config.maxRowsPerBatch as nat;
      assert k * m == (k - 1) * m + m;
    }
  }

  /** Together the batches hold every row exactly once. */
  lemma BatchLensSumToRows(config: KvtdConfig)
    requires config.maxRowsPerBatch > 0
    ensures RowsBefore(config, NumBatches(config)) == config.numRows as nat
  {
    RowsBeforeIsPrefix(config, NumBatches(config));
  }

  // ---------------------------------------------------------------------------
  // Keys: fixed-width lowercase hex

  /** The low `n` hex digits of `x`, most significant first. */
  function Hex(x: nat, n: nat): (s: string)
    ensures |s| == n
  {
    if n == 0 then [] else Hex(x / 16, n - 1) + [HEX_LOOKUP[x % 16]]
  }

  /** The value of a hex digit; characters outside `0-9a-f` read as 0. */
  function DigitValue(c: char): nat
  {
    if '0' <= c <= '9' then c as nat - '0' as nat
    else if 'a' <= c <= 'f' then c as nat - 'a' as nat + 10
    else 0
  }

  /** A string of hex digits read as a base-16 number, most significant first. */
  function HexValue(s: string): nat
  {
    if s == [] then 0 else HexValue(s[..|s| - 1]) * 16 + DigitValue(s[|s| - 1])
  }

  lemma DigitValueOfLookup(d: nat)
    requires d < 16
    ensures DigitValue(HEX_LOOKUP[d]) == d
  {
  }

  /** Every character of `Hex(x, n)` is one of `0-9a-f`. */
  lemma {:induction false} HexAlphabet(x: nat, n: nat)
    ensures forall i :: 0 <= i < n ==> Hex(x, n)[i] in HEX_LOOKUP
  {
    if n > 0 {
      HexAlphabet(x / 16, n - 1);
      forall i | 0 <= i < n ensures Hex(x, n)[i] in HEX_LOOKUP {
        if i < n - 1 {
          assert Hex(x, n)[i] == Hex(x / 16, n - 1)[i];
        }
      }
    }
  }

  /** Reading the digits back gives `x` modulo `16^n`. */
  lemma {:induction false} HexRoundTrip(x: nat, n: nat)
    ensures HexValue(Hex(x, n)) == x % Pow(16, n)
  {
    if n > 0 {
      var s := Hex(x, n);
      assert s[..n - 1] == Hex(x / 16, n - 1);
      HexRoundTrip(x / 16, n - 1);
      DigitValueOfLookup(x % 16);
      ModSplit(x, 16, Pow(16, n - 1));
    }
  }

  /** The 16-digit key of a 64-bit value reads back as that value, so
      distinct values have distinct keys. */
  lemma KeyRoundTrip(x: usize)
    ensures HexValue(Hex(x as nat, KEY_BYTES)) == x as nat
  {
    assert Pow(16, KEY_BYTES) == TWO_64 by { PowValues(); }
    HexValueOfDigits(x as nat, KEY_BYTES);
  }

  /** A value with at most `n` hex digits reads back from them exactly. */
  lemma HexValueOfDigits(x: nat, n: nat)
    requires x < Pow(16, n)
    ensures HexValue(Hex(x, n)) == x
  {
    HexRoundTrip(x, n);
    DivModUnique(x, Pow(16, n), 0, x);
  }

  lemma KeyInjective(x: usize, y: usize)
    requires Hex(x as nat, KEY_BYTES) == Hex(y as nat, KEY_BYTES)
    ensures x == y
  {
    KeyRoundTrip(x);
    KeyRoundTrip(y);
  }

  lemma {:induction false} HexOfZero(n: nat)
    ensures Hex(0, n) == seq(n, _ => '0')
  {
    if n > 0 {
      HexOfZero(n - 1);
    }
  }

  /** The `n`-digit key of `16^n - 1` is all `f`. */
  lemma {:induction false} HexOfAllOnes(n: nat)
    ensures Hex(Pow(16, n) - 1, n) == seq(n, _ => 'f')
  {
    if n > 0 {
      var p := Pow(16, n - 1);
      DivModUnique(Pow(16, n) - 1, 16, p - 1, 15);
      HexOfAllOnes(n - 1);
    }
  }

  /** The scenarios the source checks for `to_hex`: single digits ... */
  lemma HexVectorsSmall()
    ensures Hex(0, KEY_BYTES) == "0000000000000000"
    ensures Hex(1, KEY_BYTES) == "0000000000000001"
    ensures Hex(2, KEY_BYTES) == "0000000000000002"
    ensures Hex(10, KEY_BYTES) == "000000000000000a"
  {
    HexOfZero(15);
    HexOfZero(16);
    assert Hex(1, 16) == Hex(0, 15) + ['1'];
    assert Hex(2, 16) == Hex(0, 15) + ['2'];
    assert Hex(10, 16) == Hex(0, 15) + ['a'];
  }

  /** ... two digits ... */
  lemma HexVectorsTwoDigits()
    ensures Hex(16, KEY_BYTES) == "0000000000000010"
    ensures Hex(17, KEY_BYTES) == "0000000000000011"
  {
    HexOfZero(14);
    assert Hex(1, 15) == Hex(0, 14) + ['1'];
    assert Hex(16, 16) == Hex(1, 15) + ['0'];
    assert Hex(17, 16) == Hex(1, 15) + ['1'];
  }

  /** ... and the largest 64-bit value. */
  lemma HexVectorMax()
    ensures Hex(0xffff_ffff_ffff_ffff, KEY_BYTES) == "ffffffffffffffff"
  {
    assert Pow(16, 16) - 1 == 0xffff_ffff_ffff_ffff by { PowValues(); }
    HexOfAllOnes(16);
  }

  /** The state of `to_hex` after `i` steps: the digits of `x` not yet
      emitted, shifted to the top of the 64-bit word ... */
  function Shifted(x: nat, i: nat): nat
    requires i <= KEY_BYTES
  {
    (x % Pow(16, KEY_BYTES - i)) * Pow(16, i)
  }

  /** ... and the number whose `i` hex digits have been emitted. */
  function Emitted(x: nat, i: nat): nat
    requires i <= KEY_BYTES
  {
    x / Pow(16, KEY_BYTES - i)
  }

  /** One step of `to_hex`: the top nibble of the shifted word is the next
      digit, and the shift left by 4 keeps the digits after it. */
  lemma ToHexStep(x: nat, i: nat)
    requires x < TWO_64 && i < KEY_BYTES
    ensures Shifted(x, i) / TOP_NIBBLE_UNIT == Emitted(x, i + 1) % 16
    ensures (Shifted(x, i) * 16) % TWO_64 == Shifted(x, i + 1)
    ensures Emitted(x, i + 1) / 16 == Emitted(x, i)
  {
    var p, q := Pow(16, 15 - i), Pow(16, i);
    assert Pow(16, 16 - i) == p * 16;
    assert Pow(16, i + 1) == q * 16;
    assert p * q == TOP_NIBBLE_UNIT by { PowAdd(16, 15 - i, i); PowValues(); }
    NibbleStep(x, p, q, Shifted(x, i));
  }

  /** Before the first step the word is `x` and nothing is emitted; after
      the last, all of `x` is. */
  lemma ToHexEnds(x: nat)
    requires x < TWO_64
    ensures Shifted(x, 0) == x && Emitted(x, 0) == 0 && Emitted(x, KEY_BYTES) == x
  {
    PowValues();
  }

  /** `ToHexStep` with the powers of 16 as plain numbers: `p * q == 2^60`. */
  lemma NibbleStep(x: nat, p: nat, q: nat, y: nat)
    requires x < TWO_64 && p > 0 && q > 0 && p * q == TOP_NIBBLE_UNIT
    requires y == (x % (p * 16)) * q
    ensures && y / TOP_NIBBLE_UNIT == (x / p) % 16
      && (y * 16) % TWO_64 == (x % p) * (q * 16)
      && x / p / 16 == x / (p * 16)
  {
    var a := x % (p * 16);
    assert p * (q * 16) == TWO_64;
    MulModScale(a, p, q);
    ModSplit(x, p, 16);
    assert a * q * 16 == a * (q * 16);
    MulModScale(a, p, q * 16);
    ModOfMod(x, p, 16);
    DivDiv(x, p, 16);
  }

  /** Appends the 16 hex digits of `x`, most significant first, without
      clearing `col`: each step emits the top nibble and shifts left by 4. */
  method ToHex(col: string, x: usize) returns (col': string)
    ensures col' == col + Hex(x as nat, KEY_BYTES)
  {
    ToHexEnds(x as nat);
    var y: nat := x as nat;
    col' := col;
    for i := 0 to KEY_BYTES
      invariant y == Shifted(x as nat, i)
      invariant col' == col + Hex(Emitted(x as nat, i), i)
    {
      ToHexStep(x as nat, i);
      // `HEX_LOOKUP[(x & TOP_FOUR_BITS_MASK) >> 60]`
      var digit := y / TOP_NIBBLE_UNIT;
      HexSnoc(Emitted(x as nat, i + 1), i, digit);
      col' := col' + [HEX_LOOKUP[digit]];
      // `x << 4` on a 64-bit value
      y := (y * 16) % TWO_64;
    }
  }

  lemma HexSnoc(x: nat, n: nat, digit: nat)
    requires digit == x % 16
    ensures Hex(x, n + 1) == Hex(x / 16, n) + [HEX_LOOKUP[digit]]
  {
  }

  // ---------------------------------------------------------------------------
  // Values: Knuth multiplicative hashing of the row number

  /** The 64-bit hash word of row `r` after `k` wrapping multiplications by
      `LARGE_PRIME`, seeded with `r + 1`. */
  function HashWord(r: nat, k: nat): (w: nat)
    ensures w < TWO_64
  {
    ((r + 1) * Pow(LARGE_PRIME, k)) % TWO_64
  }

  /** The value of row `r`: the low byte of each of its first `valBytes`
      hash words after the seed. */
  function RowBytes(r: nat, valBytes: nat): (v: seq<u8>)
    ensures |v| == valBytes
  {
    seq(valBytes, k requires 0 <= k < valBytes => (HashWord(r, k + 1) % TWO_8) as u8)
  }

  /** The values of rows `start..start + len`, concatenated. */
  function ValBytes(start: nat, len: nat, valBytes: nat): seq<u8>
  {
    if len == 0 then [] else ValBytes(start, len - 1, valBytes) + RowBytes(start + len - 1, valBytes)
  }

  /** One more multiplication: `x.wrapping_mul(LARGE_PRIME)`. */
  lemma HashWordStep(r: nat, k: nat)
    ensures HashWord(r, k + 1) == (HashWord(r, k) * LARGE_PRIME) % TWO_64
  {
    ModMulMod((r + 1) * Pow(LARGE_PRIME, k), LARGE_PRIME, TWO_64);
    assert (r + 1) * Pow(LARGE_PRIME, k) * LARGE_PRIME == (r + 1) * Pow(LARGE_PRIME, k + 1);
  }

  /** Row `start + j` occupies bytes `j * valBytes .. (j + 1) * valBytes`. */
  lemma {:induction false} ValBytesLayout(start: nat, len: nat, valBytes: nat, j: nat)
    requires j < len
    ensures |ValBytes(start, len, valBytes)| == len * valBytes
    ensures ValBytes(start, len, valBytes)[j * valBytes..(j + 1) * valBytes] == RowBytes(start + j, valBytes)
  {
    ValBytesLength(start, len, valBytes);
    ValBytesLength(start, len - 1, valBytes);
    var prev := ValBytes(start, len - 1, valBytes);
    assert (len - 1) * valBytes + valBytes == len * valBytes;
    if j < len - 1 {
      ValBytesLayout(start, len - 1, valBytes, j);
      assert (j + 1) * valBytes <= (len - 1) * valBytes by { MulMonotone(j + 1, len - 1, valBytes); }
      assert ValBytes(start, len, valBytes)[j * valBytes..(j + 1) * valBytes]
          == prev[j * valBytes..(j + 1) * valBytes];
    } else {
      assert j * valBytes == |prev|;
    }
  }

  lemma {:induction false} ValBytesLength(start: nat, len: nat, valBytes: nat)
    ensures |ValBytes(start, len, valBytes)| == len * valBytes
  {
    if len > 0 {
      ValBytesLength(start, len - 1, valBytes);
      assert (len - 1) * valBytes + valBytes == len * valBytes;
    }
  }

  /** Asking for more value bytes only extends each row's value. */
  lemma RowBytesPrefix(r: nat, valBytes: nat, more: nat)
    requires valBytes <= more
    ensures RowBytes(r, more)[..valBytes] == RowBytes(r, valBytes)
  {
  }

  /** Seeding with `r + 1` keeps every hash word of a row non-zero: the
      multiplier is odd, so the words never lose a factor of two. */
  lemma HashWordNonZero(r: nat, k: nat)
    requires r + 1 < TWO_64
    ensures HashWord(r, k) != 0
  {
    var x := Pow(LARGE_PRIME, k);
    OddPowOdd(LARGE_PRIME, k);
    assert Pow(2, 64) == TWO_64 by { TwoToThe64(); }
    if ((r + 1) * x) % Pow(2, 64) == 0 {
      OddFactorDivides(r + 1, x, 64);
      DivModUnique(r + 1, TWO_64, 0, r + 1);
      assert false;
    }
  }

  lemma TwoToThe16()
    ensures Pow(2, 16) == 0x1_0000
  {
    assert Pow(2, 8) == 256;
    PowAdd(2, 8, 8);
  }

  lemma TwoToThe32()
    ensures Pow(2, 32) == 0x1_0000_0000
  {
    TwoToThe16();
    PowAdd(2, 16, 16);
  }

  lemma TwoToThe64()
    ensures Pow(2, 64) == TWO_64
  {
    TwoToThe32();
    PowAdd(2, 32, 32);
  }

  lemma {:induction false} OddPowOdd(x: nat, k: nat)
    requires x % 2 == 1
    ensures Pow(x, k) % 2 == 1
  {
    if k > 0 {
      OddPowOdd(x, k - 1);
      var q := Pow(x, k - 1) / 2;
      var xq := x / 2;
      assert Pow(x, k) == (2 * q + 1) * (2 * xq + 1);
      assert Pow(x, k) == 2 * (2 * q * xq + q + xq) + 1;
      DivModUnique(Pow(x, k), 2, 2 * q * xq + q + xq, 1);
    }
  }

  /** Multiplying by an odd number keeps `2^n` from dividing a product whose
      other factor it does not divide. */
  lemma {:induction false} OddFactorDivides(a: nat, x: nat, n: nat)
    requires x % 2 == 1 && (a * x) % Pow(2, n) == 0
    ensures a % Pow(2, n) == 0
  {
    if n > 0 {
      var b, c := a / 2, a % 2;
      var xq := x / 2;
      assert (a * x) % 2 == 0 by { ModOfMod(a * x, 2, Pow(2, n - 1)); }
      if c == 1 {
        assert a * x == 2 * (2 * b * xq + b + xq) + 1;
        DivModUnique(a * x, 2, 2 * b * xq + b + xq, 1);
        assert false;
      }
      assert a == b * 2;
      assert (b * x) * 2 == a * x;
      MulModScale(b * x, Pow(2, n - 1), 2);
      assert (b * x) % Pow(2, n - 1) == 0;
      OddFactorDivides(b, x, n - 1);
      MulModScale(b, Pow(2, n - 1), 2);
    }
  }

  /** Appends the value bytes of rows `start..start + len` to a cleared `col`. */
  method GenVals(col: seq<u8>, start: usize, len: usize, valBytes: usize) returns (col': seq<u8>)
    requires start as nat + len as nat < TWO_64
    ensures col' == ValBytes(start as nat, len as nat, valBytes as nat)
  {
    col' := [];
    for idx := start as nat to start as nat + len as nat
      invariant col' == ValBytes(start as nat, idx - start as nat, valBytes as nat)
    {
      ghost var before := col';
      var x: nat := idx + 1;
      for k := 0 to valBytes as nat
        invariant x == HashWord(idx, k)
        invariant col' == before + RowBytes(idx, valBytes as nat)[..k]
      {
        HashWordStep(idx, k);
        x := (x * LARGE_PRIME) % TWO_64;
        col' := col' + [(x % TWO_8) as u8];
        assert RowBytes(idx, valBytes as nat)[..k + 1] == RowBytes(idx, valBytes as nat)[..k] + [(x % TWO_8) as u8];
      }
      assert RowBytes(idx, valBytes as nat)[..valBytes as nat] == RowBytes(idx, valBytes as nat);
    }
  }

  /** The value bytes of the serialized three-row example with four value
      bytes per row. */
  lemma ValueVectors()
    ensures RowBytes(0, 4) == [197, 153, 189, 113]
    ensures RowBytes(1, 4) == [138, 50, 122, 226]
    ensures RowBytes(2, 4) == [79, 203, 55, 83]
  {
    assert Pow(LARGE_PRIME, 0) == 1;
    HashWordStep(0, 0);
    assert HashWord(0, 1) == 18446744073709551557;
    assert HashWord(0, 2) == 3481 by { HashWordStep(0, 1); }
    assert HashWord(0, 3) == 18446744073709346237 by { HashWordStep(0, 2); }
    assert HashWord(0, 4) == 12117361 by { HashWordStep(0, 3); }
    HashWordStep(1, 0);
    assert HashWord(1, 1) == 18446744073709551498;
    assert HashWord(1, 2) == 6962 by { HashWordStep(1, 1); }
    assert HashWord(1, 3) == 18446744073709140858 by { HashWordStep(1, 2); }
    assert HashWord(1, 4) == 24234722 by { HashWordStep(1, 3); }
    HashWordStep(2, 0);
    assert HashWord(2, 1) == 18446744073709551439;
    assert HashWord(2, 2) == 10443 by { HashWordStep(2, 1); }
    assert HashWord(2, 3) == 18446744073708935479 by { HashWordStep(2, 2); }
    assert HashWord(2, 4) == 36352083 by { HashWordStep(2, 3); }
  }

  // ---------------------------------------------------------------------------
  // The unused column generators

  /** The keys of rows `start..start + len`, concatenated. */
  function Keys(start: nat, len: nat): (s: string)
    ensures |s| == len * KEY_BYTES
  {
    if len == 0 then [] else Keys(start, len - 1) + Hex(start + len - 1, KEY_BYTES)
  }

  /** Clears `col` and appends the keys of rows `start..start + len`. */
  method GenKeys(col: string, start: usize, len: usize) returns (col': string)
    requires start as nat + len as nat < TWO_64
    ensures col' == Keys(start as nat, len as nat)
  {
    col' := [];
    for x := start as nat to start as nat + len as nat
      invariant col' == Keys(start as nat, x - start as nat)
    {
      col' := ToHex(col', x as usize);
    }
  }

  /** Clears `col` and appends the timestamps `start..start + len`. */
  method GenTimes(col: seq<u64>, start: usize, len: usize) returns (col': seq<u64>)
    requires start as nat + len as nat < TWO_64
    ensures |col'| == len as nat
    ensures forall i :: 0 <= i < |col'| ==> col'[i] as nat == start as nat + i
  {
    col' := [];
    for x := start as nat to start as nat + len as nat
      invariant |col'| == x - start as nat
      invariant forall i :: 0 <= i < |col'| ==> col'[i] as nat == start as nat + i
    {
      col' := col' + [x as u64];
    }
  }

  /** Clears `col` and resizes it to `len` diffs of 1. */
  method GenDiffs(col: seq<i64>, len: usize) returns (col': seq<i64>)
    ensures |col'| == len as nat
    ensures forall i :: 0 <= i < |col'| ==> col'[i] == 1
  {
    col' := seq(len as nat, _ => 1);
  }

  // ---------------------------------------------------------------------------
  // The table

  type KvtdBatch = Tuple4Col<u64, i64>

  /** A fresh empty batch: the timestamp (`u64`) and diff (`i64`)
      components are `size_of`, 8 bytes, wide. */
  method NewBatch() returns (batch: KvtdBatch)
    ensures fresh(batch.Repr())
    ensures batch.Valid() && batch.Contents == []
    ensures batch.c2.width == 8 && batch.c3.width == 8
  {
    batch := new Tuple4Col(8, 8);
  }

  /** Row `j` of a batch: the key and value of row number `j`, timestamp `j`
      and diff 1. The row number restarts at 0 in every batch. */
  function Row(j: nat, valBytes: nat): (string, seq<u8>, u64, i64)
    requires j < TWO_64
  {
    (Hex(j, KEY_BYTES), RowBytes(j, valBytes), j as u64, 1)
  }

  /** The rows one batch of `len` rows appends. */
  function BatchRows(len: nat, valBytes: nat): (rows: seq<(string, seq<u8>, u64, i64)>)
    requires len < TWO_64
    ensures |rows| == len
    ensures forall j :: 0 <= j < len ==> rows[j] == Row(j, valBytes)
  {
    seq(len, j requires 0 <= j < len => Row(j, valBytes))
  }

  lemma BatchRowsSnoc(j: nat, valBytes: nat)
    requires j + 1 < TWO_64
    ensures BatchRows(j + 1, valBytes) == BatchRows(j, valBytes) + [Row(j, valBytes)]
  {
  }

  lemma ValBytesOneRow(r: nat, valBytes: nat)
    ensures ValBytes(r, 1, valBytes) == RowBytes(r, valBytes)
  {
  }

  /** Appends batch `idx` to `batch` (which is not cleared first): nothing
      for an index past the last batch, otherwise `BatchLen` rows. */
  method GenBatch(config: KvtdConfig, idx: usize, batch: KvtdBatch)
    requires batch.Valid()
    modifies batch.Repr()
    ensures batch.Valid()
    ensures batch.Contents == old(batch.Contents) + BatchRows(BatchLen(config, idx as nat), config.valBytes as nat)
  {
    var len := BatchLen(config, idx as nat);
    if len == 0 {
      return;
    }
    ghost var before := batch.Contents;
    var keyBuf: string := [];
    var valBuf: seq<u8> := [];
    for j := 0 to len
      invariant batch.Valid()
      invariant batch.Contents == before + BatchRows(j, config.valBytes as nat)
    {
      keyBuf := [];
      keyBuf := ToHex(keyBuf, j as usize);
      assert keyBuf == Hex(j, KEY_BYTES);
      valBuf := GenVals(valBuf, j as usize, 1, config.valBytes);
      ValBytesOneRow(j, config.valBytes as nat);
      batch.Push((keyBuf, valBuf, j as u64, 1));
      BatchRowsSnoc(j, config.valBytes as nat);
    }
  }

  /** Rows of the serialized example: three rows with four value bytes, all
      in one batch. */
  lemma ExampleBatch()
    ensures NumBatches(KvtdConfig(4, 3, 3)) == 1
    ensures BatchLen(KvtdConfig(4, 3, 3), 0) == 3
    ensures BatchRows(3, 4) == [
      ("0000000000000000", [197, 153, 189, 113], 0, 1),
      ("0000000000000001", [138, 50, 122, 226], 1, 1),
      ("0000000000000002", [79, 203, 55, 83], 2, 1)]
  {
    HexVectorsSmall();
    ValueVectors();
    var rows := BatchRows(3, 4);
    assert rows[0] == Row(0, 4) && rows[1] == Row(1, 4) && rows[2] == Row(2, 4);
  }
}
