/** The TPC-C `DateTime` and its column (src/tpcc.rs:67-72, 933-976): a
    column of `DateTime`s is a column of 64-bit words, each holding the date
    in its four low little-endian bytes and the time in the four high ones. */
module DateTimes {
  import opened Base

  /** Days since 1900-01-01 and seconds since midnight. */
  datatype DateTime = DateTime(date: u32, time: u32)

  /** The generation time the tests fix: 2023-02-18, 1 PM. */
  const FEB_18_2023_1_PM: DateTime := DateTime(44_973, 13 * 60 * 60)

  /** `to_le_bytes` of an `n`-byte unsigned value: least significant first. */
  function LeBytes(x: nat, n: nat): (bs: seq<u8>)
    ensures |bs| == n
  {
    if n == 0 then [] else [(x % TWO_8) as u8] + LeBytes(x / TWO_8, n - 1)
  }

  /** `from_le_bytes`: the value of little-endian bytes. */
  function FromLeBytes(bs: seq<u8>): nat
  {
    if bs == [] then 0 else bs[0] as nat + TWO_8 * FromLeBytes(bs[1..])
  }

  lemma {:induction false} FromLeBytesBound(bs: seq<u8>)
    ensures FromLeBytes(bs) < Pow(256, |bs|)
  {
    if bs != [] {
      FromLeBytesBound(bs[1..]);
      assert FromLeBytes(bs) <= 255 + 256 * (Pow(256, |bs| - 1) - 1);
    }
  }

  /** Reading back the bytes of `x` gives `x` modulo `256^n`. */
  lemma {:induction false} LeBytesRoundTrip(x: nat, n: nat)
    ensures FromLeBytes(LeBytes(x, n)) == x % Pow(256, n)
  {
    if n > 0 {
      var bs := LeBytes(x, n);
      assert bs[1..] == LeBytes(x / TWO_8, n - 1);
      LeBytesRoundTrip(x / TWO_8, n - 1);
      ModSplit(x, TWO_8, Pow(256, n - 1));
    }
  }

  /** Writing out the value of some bytes gives those bytes back. */
  lemma {:induction false} FromLeBytesRoundTrip(bs: seq<u8>)
    ensures LeBytes(FromLeBytes(bs), |bs|) == bs
  {
    if bs != [] {
      var x := FromLeBytes(bs);
      DivModUnique(x, TWO_8, FromLeBytes(bs[1..]), bs[0] as nat);
      FromLeBytesRoundTrip(bs[1..]);
    }
  }

  /** Bytes appended after `a` count in units of `256^|a|`. */
  lemma {:induction false} FromLeBytesAppend(a: seq<u8>, b: seq<u8>)
    ensures FromLeBytes(a + b) == FromLeBytes(a) + Pow(256, |a|) * FromLeBytes(b)
  {
    if a == [] {
      assert a + b == b;
    } else {
      assert (a + b)[1..] == a[1..] + b;
      FromLeBytesAppend(a[1..], b);
      var p := Pow(256, |a| - 1);
      calc {
        FromLeBytes(a + b);
        a[0] as nat + TWO_8 * (FromLeBytes(a[1..]) + p * FromLeBytes(b));
        a[0] as nat + TWO_8 * FromLeBytes(a[1..]) + (TWO_8 * p) * FromLeBytes(b);
      }
    }
  }

  /** `Col::push` for a `DateTime`: date bytes `0..4`, time bytes `4..8`. */
  function Pack(t: DateTime): (w: u64)
  {
    PackBound(t);
    FromLeBytes(LeBytes(t.date as nat, 4) + LeBytes(t.time as nat, 4)) as u64
  }

  lemma PackBound(t: DateTime)
    ensures FromLeBytes(LeBytes(t.date as nat, 4) + LeBytes(t.time as nat, 4)) < TWO_64
  {
    FromLeBytesBound(LeBytes(t.date as nat, 4) + LeBytes(t.time as nat, 4));
    PowValues();
  }

  /** `Col::get` for a `DateTime`: the first four bytes are the date and
      the last four the time. */
  function Unpack(w: u64): (t: DateTime)
  {
    var bs := LeBytes(w as nat, 8);
    FromLeBytesBound(bs[..4]);
    FromLeBytesBound(bs[4..]);
    PowValues();
    DateTime(FromLeBytes(bs[..4]) as u32, FromLeBytes(bs[4..]) as u32)
  }

  /** The stored word puts the date in the low half and the time in the high
      half. */
  lemma PackValue(t: DateTime)
    ensures Pack(t) as nat == t.date as nat + t.time as nat * TWO_32
  {
    PowValues();
    FromLeBytesAppend(LeBytes(t.date as nat, 4), LeBytes(t.time as nat, 4));
    LeBytesRoundTrip(t.date as nat, 4);
    LeBytesRoundTrip(t.time as nat, 4);
  }

  /** `get` after `push(t)` returns `t`. */
  lemma UnpackPack(t: DateTime)
    ensures Unpack(Pack(t)) == t
  {
    var low, high := LeBytes(t.date as nat, 4), LeBytes(t.time as nat, 4);
    PackBound(t);
    FromLeBytesRoundTrip(low + high);
    assert LeBytes(Pack(t) as nat, 8) == low + high;
    assert (low + high)[..4] == low && (low + high)[4..] == high;
    PowValues();
    LeBytesRoundTrip(t.date as nat, 4);
    LeBytesRoundTrip(t.time as nat, 4);
  }

  /** Distinct `DateTime`s are stored as distinct words. */
  lemma PackInjective(s: DateTime, t: DateTime)
    requires Pack(s) == Pack(t)
    ensures s == t
  {
    UnpackPack(s);
    UnpackPack(t);
  }

  /** `From<DateTime> for u64`: `(date << 32) + time`, the date in the high
      half. A date below 2^32 shifted by 32 fits in 64 bits, so neither the
      shift nor the addition wraps. */
  function ToU64(t: DateTime): (w: u64)
  {
    ((t.date as nat * TWO_32) % TWO_64 + t.time as nat) as u64
  }

  lemma ToU64Value(t: DateTime)
    ensures ToU64(t) as nat == t.date as nat * TWO_32 + t.time as nat
  {
    DivModUnique(t.date as nat * TWO_32, TWO_64, 0, t.date as nat * TWO_32);
  }

  /** The serialized form is the stored word with date and time swapped. */
  lemma ToU64IsSwappedPack(t: DateTime)
    ensures ToU64(t) == Pack(DateTime(t.time, t.date))
  {
    ToU64Value(t);
    PackValue(DateTime(t.time, t.date));
  }

  /** The serialized generation time of the tests. */
  lemma ToU64Vector()
    ensures ToU64(FEB_18_2023_1_PM) == 193157564249808
  {
    ToU64Value(FEB_18_2023_1_PM);
  }

  /** `Vec<u64>` as the column of `DateTime`. */
  class DateTimeCol {
    var words: seq<u64>
    ghost var Contents: seq<DateTime>

    ghost predicate Valid()
      reads this
    {
      |words| == |Contents| && forall i :: 0 <= i < |words| ==> words[i] == Pack(Contents[i])
    }

    constructor()
      ensures Valid() && Contents == []
    {
      words := [];
      Contents := [];
    }

    function Len(): (n: nat)
      reads this
      ensures Valid() ==> n == |Contents|
    {
      |words|
    }

    function Get(idx: nat): (t: DateTime)
      reads this
      requires Valid() && idx < Len()
      ensures t == Contents[idx]
    {
      UnpackPack(Contents[idx]);
      Unpack(words[idx])
    }

    method Push(t: DateTime)
      requires Valid()
      modifies this
      ensures Valid() && Contents == old(Contents) + [t]
      ensures words == old(words) + [Pack(t)]
    {
      var x := LeBytes(t.date as nat, 4) + LeBytes(t.time as nat, 4);
      PackBound(t);
      words := words + [FromLeBytes(x) as u64];
      Contents := Contents + [t];
    }

    method Clear()
      requires Valid()
      modifies this
      ensures Valid() && Contents == [] && words == []
    {
      words := [];
      Contents := [];
    }

    /** Eight bytes per stored `DateTime`. */
    function GoodBytes(): (b: nat)
      reads this
      ensures Valid() ==> b == |Contents| * 8
    {
      |words| * 8
    }
  }
}
