/** The field generators of the TPC-C tables (src/tpcc.rs:84-90, 860-931):
    random integers and strings drawn from fixed alphabets, in the shapes
    the TPC-C standard prescribes. Each appends to a string buffer, as the
    source does. */
module TpccFields {
  import opened Base
  import opened Rand

  /** The TPC-C "n-string" alphabet: digits. */
  const N_ALPHABET: string := "0123456789"
  /** The TPC-C "a-string" alphabet: letters of both cases, then digits. */
  const A_ALPHABET: string := "abcdefghijklmnopqrstuvwxyzABCDEFGHIJKLMNOPQRSTUVWXYZ0123456789"
  /** The marker of clause 4.3.3.1 of the TPC-C standard. */
  const ORIGINAL: string := "ORIGINAL"
  /** The constant tail of a zip code (clause 4.3.2.7 of the TPC-C standard). */
  const ZIP_SUFFIX: string := "11111"

  /** Every character of `s` is one of `alphabet`. */
  predicate Drawn(s: string, alphabet: string)
  {
    forall i :: 0 <= i < |s| ==> s[i] in alphabet
  }

  lemma AlphabetSizes()
    ensures |N_ALPHABET| == 10 && |A_ALPHABET| == 62
    ensures forall i :: 0 <= i < |ORIGINAL| ==> ORIGINAL[i] in A_ALPHABET
    ensures forall i :: 0 <= i < |ZIP_SUFFIX| ==> ZIP_SUFFIX[i] in N_ALPHABET
  {
  }

  /** `rand_int`: uniform in `[min, max]`, both inclusive (clause 2.1.4 of
      the TPC-C standard). */
  method RandInt(rng: SmallRng, min: nat, max: nat) returns (r: nat)
    requires min <= max
    modifies rng
    ensures min <= r <= max
  {
    r := rng.GenRangeInclusive(min, max);
  }

  /** `rand_string`: appends `len` characters drawn from `alphabet`. An
      empty alphabet panics at the first draw, so it is allowed only when
      nothing is to be drawn. */
  method RandString(rng: SmallRng, alphabet: string, len: nat, x: string) returns (x': string)
    requires len > 0 ==> |alphabet| > 0
    modifies rng
    ensures |x'| == |x| + len && x'[..|x|] == x
    ensures Drawn(x'[|x|..], alphabet)
  {
    x' := x;
    for i := 0 to len
      invariant |x'| == |x| + i && x'[..|x|] == x
      invariant Drawn(x'[|x|..], alphabet)
    {
      var k := rng.GenRange(0, |alphabet|);
      ghost var before := x';
      x' := x' + [alphabet[k]];
      assert x'[|x|..] == before[|x|..] + [alphabet[k]];
    }
  }

  /** `rand_string_len`: appends between `minLen` and `maxLen` characters
      drawn from `alphabet`; equal bounds skip the length draw. */
  method RandStringLen(rng: SmallRng, alphabet: string, minLen: nat, maxLen: nat, x: string)
    returns (x': string)
    requires minLen <= maxLen
    requires maxLen > 0 ==> |alphabet| > 0
    modifies rng
    ensures minLen <= |x'| - |x| <= maxLen && x'[..|x|] == x
    ensures Drawn(x'[|x|..], alphabet)
  {
    if minLen == maxLen {
      x' := RandString(rng, alphabet, minLen, x);
    } else {
      var len := RandInt(rng, minLen, maxLen);
      x' := RandString(rng, alphabet, len, x);
    }
  }

  /** `rand_state`: appends two letters or digits. */
  method RandState(rng: SmallRng, x: string) returns (x': string)
    modifies rng
    ensures |x'| == |x| + 2 && x'[..|x|] == x
    ensures Drawn(x'[|x|..], A_ALPHABET)
  {
    x' := RandString(rng, A_ALPHABET, 2, x);
  }

  /** A zip code of clause 4.3.2.7 of the TPC-C standard: four random digits
      followed by `11111`. */
  predicate IsZip(z: string)
  {
    |z| == 9 && Drawn(z[..4], N_ALPHABET) && z[4..] == ZIP_SUFFIX
  }

  /** `rand_zip`: appends a zip code. */
  method RandZip(rng: SmallRng, x: string) returns (x': string)
    modifies rng
    ensures |x'| == |x| + 9 && x'[..|x|] == x && IsZip(x'[|x|..])
  {
    var digits := RandString(rng, N_ALPHABET, 4, x);
    x' := digits + ZIP_SUFFIX;
    assert x'[|x|..] == digits[|x|..] + ZIP_SUFFIX;
  }

  /** The integer draw behind `rand_tax`, in units of 1/10000: the tax is
      between 0.0000 and 0.2000 (clause 2.1.5 of the TPC-C standard). */
  method RandTax(rng: SmallRng) returns (basisPoints: nat)
    modifies rng
    ensures basisPoints <= 2000
  {
    basisPoints := RandInt(rng, 0, 2000);
  }

  /** A data field of clause 4.3.3.1 of the TPC-C standard: 26 to 50 letters
      or digits, which, when `marker` is `Some(before)`, hold `ORIGINAL` at
      offset `before` with at least one character after it. */
  predicate IsOriginalData(s: string, marker: Option<nat>)
  {
    && 26 <= |s| <= 50
    && Drawn(s, A_ALPHABET)
    && (marker.Some? ==>
          marker.value + |ORIGINAL| < |s| && s[marker.value..marker.value + |ORIGINAL|] == ORIGINAL)
  }

  lemma DrawnConcat(a: string, b: string, alphabet: string)
    requires Drawn(a, alphabet) && Drawn(b, alphabet)
    ensures Drawn(a + b, alphabet)
  {
    forall i | 0 <= i < |a + b| ensures (a + b)[i] in alphabet {
      if i >= |a| {
        assert (a + b)[i] == b[i - |a|];
      }
    }
  }

  /** `rand_original_string`: appends a data field that, one time in ten,
      holds the `ORIGINAL` marker; `marker` names its offset. The marker
      branch splits the length as `before + 8 + after` with `before` drawn
      below `len - 8`. */
  method RandOriginalString(rng: SmallRng, x: string) returns (x': string, ghost marker: Option<nat>)
    modifies rng
    ensures |x'| >= |x| && x'[..|x|] == x && IsOriginalData(x'[|x|..], marker)
  {
    var len := RandInt(rng, 26, 50);
    var coin := rng.GenRange(0, 10);
    if coin == 0 {
      var before := rng.GenRange(0, len - |ORIGINAL|);
      var after := len - before - |ORIGINAL|;
      assert before + |ORIGINAL| + after == len && after >= 1;
      var head := RandString(rng, A_ALPHABET, before, x);
      var middle := head + ORIGINAL;
      x' := RandString(rng, A_ALPHABET, after, middle);
      ghost var added := x'[|x|..];
      assert added == head[|x|..] + ORIGINAL + x'[|middle|..];
      AlphabetSizes();
      DrawnConcat(head[|x|..], ORIGINAL, A_ALPHABET);
      DrawnConcat(head[|x|..] + ORIGINAL, x'[|middle|..], A_ALPHABET);
      assert added[before..before + |ORIGINAL|] == ORIGINAL;
      marker := Some(before);
    } else {
      x' := RandString(rng, A_ALPHABET, len, x);
      marker := None;
    }
  }

  /** The closures the tables hand to `reuse`, one constructor per shape. */
  datatype Fill =
    | FixedLen(alphabet: string, len: nat)
    | RangeLen(alphabet: string, minLen: nat, maxLen: nat)
    | State
    | Zip
    | Original

  /** What a fill may pass to the string generators. */
  predicate FillOk(f: Fill)
  {
    match f
    case FixedLen(alphabet, len) => len > 0 ==> |alphabet| > 0
    case RangeLen(alphabet, minLen, maxLen) => minLen <= maxLen && (maxLen > 0 ==> |alphabet| > 0)
    case _ => true
  }

  /** The strings a fill can produce from an empty buffer. */
  ghost predicate Fills(f: Fill, s: string)
  {
    match f
    case FixedLen(alphabet, len) => |s| == len && Drawn(s, alphabet)
    case RangeLen(alphabet, minLen, maxLen) => minLen <= |s| <= maxLen && Drawn(s, alphabet)
    case State => |s| == 2 && Drawn(s, A_ALPHABET)
    case Zip => IsZip(s)
    case Original => IsOriginalData(s, None)
  }

  /** `reuse`: clears the buffer, then fills it; what it holds before the
      call does not reach the result. */
  method Reuse(rng: SmallRng, x: string, f: Fill) returns (x': string)
    requires FillOk(f)
    modifies rng
    ensures Fills(f, x')
  {
    x' := [];
    match f
    case FixedLen(alphabet, len) =>
      x' := RandString(rng, alphabet, len, x');
    case RangeLen(alphabet, minLen, maxLen) =>
      x' := RandStringLen(rng, alphabet, minLen, maxLen, x');
    case State =>
      x' := RandState(rng, x');
    case Zip =>
      x' := RandZip(rng, x');
    case Original =>
      ghost var m;
      x', m := RandOriginalString(rng, x');
  }
}
