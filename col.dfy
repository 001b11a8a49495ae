/** Append-only column containers (src/col.rs). Every column class keeps a
    ghost `Contents`, the logical elements pushed since the last `Clear`, and
    a `Valid()` invariant tying it to the concrete storage the source uses. */
module Col {
  import opened Base

  /** `std::mem::size_of::<usize>()` on a 64-bit target. */
  const USIZE_BYTES: nat := 8
  /** `std::mem::size_of::<bool>()`. */
  const BOOL_BYTES: nat := 1

  /** The outcome of a read that the source checks itself: the value, or the
      panic "get index ({idx}) should be < len ({len})". */
  datatype Checked<T> = Value(value: T) | Panic(idx: nat, len: nat)

  // ---------------------------------------------------------------------------
  // Unit column: `impl Col<()> for usize`

  /** A column of `()` stores nothing but its element count. */
  class UnitCol {
    var count: nat
    ghost var Contents: seq<()>

    ghost predicate Valid()
      reads this
    {
      |Contents| == count
    }

    constructor ()
      ensures Valid() && Contents == []
    {
      count := 0;
      Contents := [];
    }

    function Len(): (n: nat)
      reads this
      ensures Valid() ==> n == |Contents|
    {
      count
    }

    /** Succeeds exactly for the indices below the count; panics otherwise. */
    function Get(idx: nat): (r: Checked<()>)
      reads this
      ensures Valid() ==> (r.Value? <==> idx < |Contents|)
      ensures r.Panic? ==> r.idx == idx && r.len == Len()
    {
      if idx < count then Value(()) else Panic(idx, count)
    }

    method Push(t: ())
      requires Valid()
      modifies this
      ensures Valid() && Contents == old(Contents) + [t]
      ensures Len() == old(Len()) + 1
    {
      count := count + 1;
      Contents := Contents + [t];
    }

    method Clear()
      requires Valid()
      modifies this
      ensures Valid() && Contents == [] && Len() == 0
    {
      count := 0;
      Contents := [];
    }

    /** The size of the counter itself, whatever has been pushed. */
    function GoodBytes(): (b: nat)
      ensures b == USIZE_BYTES
    {
      USIZE_BYTES
    }
  }

  // ---------------------------------------------------------------------------
  // Primitive column: `impl Col<T> for Vec<T>` (col_primitive!)

  /** A column of a fixed-width primitive: a plain vector of values.
      `width` is `size_of::<T>()`. */
  class PrimCol<T> {
    const width: nat
    var vals: seq<T>
    ghost var Contents: seq<T>

    ghost predicate Valid()
      reads this
    {
      vals == Contents
    }

    constructor (width: nat)
      ensures Valid() && Contents == [] && this.width == width
    {
      this.width := width;
      vals := [];
      Contents := [];
    }

    function Len(): (n: nat)
      reads this
      ensures Valid() ==> n == |Contents|
    {
      |vals|
    }

    /** `self[idx]`, which panics unless `idx < len`. */
    function Get(idx: nat): (r: T)
      reads this
      requires Valid() && idx < Len()
      ensures r == Contents[idx]
    {
      vals[idx]
    }

    method Push(t: T)
      requires Valid()
      modifies this
      ensures Valid() && Contents == old(Contents) + [t]
    {
      vals := vals + [t];
      Contents := Contents + [t];
    }

    method Clear()
      requires Valid()
      modifies this
      ensures Valid() && Contents == []
    {
      vals := [];
      Contents := [];
    }

    function GoodBytes(): (b: nat)
      reads this
      ensures Valid() ==> b == |Contents| * width
    {
      |vals| * width
    }
  }

  // ---------------------------------------------------------------------------
  // Option column: `impl Col<Option<T>> for (Vec<bool>, C)`, with C a
  // primitive column

  /** A presence flag per element plus a value column that holds a default
      placeholder wherever the flag is false, so both have the same length. */
  class OptionCol<T> {
    var flags: seq<bool>
    const values: PrimCol<T>
    /** `<T as Data>::Ref::default()`. */
    const placeholder: T
    ghost var Contents: seq<Option<T>>

    ghost predicate Valid()
      reads this, values
    {
      && values.Valid()
      && |flags| == |Contents|
      && |values.Contents| == |Contents|
      && (forall i :: 0 <= i < |Contents| ==>
            Contents[i] == if flags[i] then Some(values.Contents[i]) else None)
      && (forall i :: 0 <= i < |Contents| && !flags[i] ==> values.Contents[i] == placeholder)
    }

    constructor (width: nat, placeholder: T)
      ensures Valid() && Contents == [] && fresh(values)
      ensures values.width == width && this.placeholder == placeholder
    {
      flags := [];
      values := new PrimCol(width);
      this.placeholder := placeholder;
      Contents := [];
    }

    function Len(): (n: nat)
      reads this, values
      ensures Valid() ==> n == |Contents| == values.Len()
    {
      |flags|
    }

    /** `None` exactly where the flag is false, otherwise the stored value. */
    function Get(idx: nat): (r: Option<T>)
      reads this, values
      requires Valid() && idx < Len()
      ensures r == Contents[idx]
      ensures r.None? <==> !flags[idx]
    {
      if flags[idx] then Some(values.Get(idx)) else None
    }

    method Push(t: Option<T>)
      requires Valid()
      modifies this, values
      ensures Valid() && Contents == old(Contents) + [t]
      ensures flags == old(flags) + [t.Some?]
      ensures values.Contents == old(values.Contents) + [if t.Some? then t.value else placeholder]
    {
      Contents := Contents + [t];
      match t
      case Some(v) =>
        flags := flags + [true];
        values.Push(v);
      case None =>
        flags := flags + [false];
        values.Push(placeholder);
    }

    method Clear()
      requires Valid()
      modifies this, values
      ensures Valid() && Contents == [] && flags == [] && values.Contents == []
    {
      flags := [];
      values.Clear();
      Contents := [];
    }

    /** One byte per flag plus the value column's payload. */
    function GoodBytes(): (b: nat)
      reads this, values
      ensures Valid() ==> b == |Contents| * BOOL_BYTES + values.GoodBytes()
      ensures Valid() ==> b == |Contents| * (BOOL_BYTES + values.width)
    {
      |flags| * BOOL_BYTES + values.GoodBytes()
    }
  }

  // ---------------------------------------------------------------------------
  // Variable-length columns: `impl Col<String> for (Vec<usize>, String)` and
  // `impl Col<Vec<u8>> for (Vec<usize>, Vec<u8>)`, which are the same code

  /** All elements laid end to end. */
  function Flatten<E>(cs: seq<seq<E>>): seq<E>
  {
    if cs == [] then [] else Flatten(cs[..|cs| - 1]) + cs[|cs| - 1]
  }

  /** The end offset of every element in `Flatten(cs)`. */
  function Ends<E>(cs: seq<seq<E>>): seq<nat>
  {
    if cs == [] then [] else Ends(cs[..|cs| - 1]) + [|Flatten(cs)|]
  }

  /** The payload size: the sum of the element lengths. */
  function TotalLen<E>(cs: seq<seq<E>>): nat
  {
    if cs == [] then 0 else |cs[0]| + TotalLen(cs[1..])
  }

  /** Where element `i` starts: 0 for the first, the previous end otherwise. */
  function Start(lens: seq<nat>, i: nat): nat
    requires i <= |lens|
  {
    if i == 0 then 0 else lens[i - 1]
  }

  lemma {:induction false} EndsLength<E>(cs: seq<seq<E>>)
    ensures |Ends(cs)| == |cs|
  {
    if cs != [] {
      EndsLength(cs[..|cs| - 1]);
    }
  }

  /** The end offset of element `i` is the length of the first `i + 1`
      elements laid end to end. */
  lemma {:induction false} EndsAt<E>(cs: seq<seq<E>>, i: nat)
    requires i < |cs|
    ensures |Ends(cs)| == |cs| && Ends(cs)[i] == |Flatten(cs[..i + 1])|
  {
    EndsLength(cs);
    var init := cs[..|cs| - 1];
    if i < |cs| - 1 {
      EndsAt(init, i);
      EndsLength(init);
      assert init[..i + 1] == cs[..i + 1];
    } else {
      assert cs[..i + 1] == cs;
    }
  }

  /** A prefix of the elements flattens to a prefix of the buffer. */
  lemma {:induction false} FlattenPrefix<E>(cs: seq<seq<E>>, k: nat)
    requires k <= |cs|
    ensures |Flatten(cs[..k])| <= |Flatten(cs)|
    ensures Flatten(cs) [..|Flatten(cs[..k])|] == Flatten(cs[..k])
  {
    if k < |cs| {
      var init := cs[..|cs| - 1];
      assert init[..k] == cs[..k];
      FlattenPrefix(init, k);
    } else {
      assert cs[..k] == cs;
    }
  }

  /** Element `i` sits in the buffer between its start and end offsets. */
  lemma FlattenSlice<E>(cs: seq<seq<E>>, i: nat)
    requires i < |cs|
    ensures |Ends(cs)| == |cs|
    ensures Start(Ends(cs), i) <= Ends(cs)[i] <= |Flatten(cs)|
    ensures Flatten(cs)[Start(Ends(cs), i)..Ends(cs)[i]] == cs[i]
  {
    EndsAt(cs, i);
    FlattenPrefix(cs, i + 1);
    var pre := cs[..i + 1];
    assert pre[..|pre| - 1] == cs[..i];
    assert Flatten(pre) == Flatten(cs[..i]) + cs[i];
    if i > 0 {
      EndsAt(cs, i - 1);
      assert Start(Ends(cs), i) == |Flatten(cs[..i])|;
    } else {
      assert cs[..i] == [];
    }
    var f := Flatten(cs);
    assert f[..|Flatten(pre)|] == Flatten(pre);
    assert f[Start(Ends(cs), i)..Ends(cs)[i]] == Flatten(pre)[|Flatten(cs[..i])|..];
  }

  /** Offsets never decrease, and the last one is the buffer length. */
  lemma {:induction false} EndsMonotone<E>(cs: seq<seq<E>>)
    ensures |Ends(cs)| == |cs|
    ensures forall i, j :: 0 <= i <= j < |cs| ==> Ends(cs)[i] <= Ends(cs)[j]
    ensures |cs| > 0 ==> Ends(cs)[|cs| - 1] == |Flatten(cs)|
  {
    EndsLength(cs);
    if cs != [] {
      var init := cs[..|cs| - 1];
      EndsMonotone(init);
      EndsLength(init);
      FlattenPrefix(cs, |cs| - 1);
      forall i | 0 <= i < |init|
        ensures Ends(cs)[i] <= Ends(cs)[|cs| - 1]
      {
        assert Ends(cs)[i] == Ends(init)[i];
      }
    }
  }

  lemma {:induction false} FlattenLength<E>(cs: seq<seq<E>>)
    ensures |Flatten(cs)| == TotalLen(cs)
  {
    if cs != [] {
      var init := cs[..|cs| - 1];
      FlattenLength(init);
      TotalLenSnoc(init, cs[|cs| - 1]);
      assert init + [cs[|cs| - 1]] == cs;
    }
  }

  lemma {:induction false} TotalLenSnoc<E>(cs: seq<seq<E>>, c: seq<E>)
    ensures TotalLen(cs + [c]) == TotalLen(cs) + |c|
  {
    if cs != [] {
      TotalLenSnoc(cs[1..], c);
      assert (cs + [c])[1..] == cs[1..] + [c];
    }
  }

  /** An offsets vector of end positions plus one concatenated buffer.
      For text the elements are characters standing for the UTF-8 bytes of
      the source's `String`; for bytes they are `u8`. */
  class VarLenCol<E> {
    var lens: seq<nat>
    var concat: seq<E>
    ghost var Contents: seq<seq<E>>

    ghost predicate Valid()
      reads this
    {
      lens == Ends(Contents) && concat == Flatten(Contents)
    }

    constructor ()
      ensures Valid() && Contents == []
    {
      lens := [];
      concat := [];
      Contents := [];
    }

    function Len(): (n: nat)
      reads this
      ensures Valid() ==> n == |Contents|
    {
      EndsLength(Contents);
      |lens|
    }

    /** `concat[start..lens[idx]]` where `start` is the previous end offset,
        or 0 for the first element. */
    function Get(idx: nat): (r: seq<E>)
      reads this
      requires Valid() && idx < Len()
      ensures r == Contents[idx]
    {
      EndsLength(Contents);
      FlattenSlice(Contents, idx);
      var end := lens[idx];
      var start := if idx == 0 then 0 else lens[idx - 1];
      concat[start..end]
    }

    /** Appends `t` to the buffer and records the new buffer length. */
    method Push(t: seq<E>)
      requires Valid()
      modifies this
      ensures Valid() && Contents == old(Contents) + [t]
      ensures concat == old(concat) + t && lens == old(lens) + [|concat|]
    {
      ghost var cs := Contents + [t];
      assert cs[..|cs| - 1] == Contents;
      concat := concat + t;
      lens := lens + [|concat|];
      Contents := cs;
    }

    method Clear()
      requires Valid()
      modifies this
      ensures Valid() && Contents == [] && lens == [] && concat == []
    {
      lens := [];
      concat := [];
      Contents := [];
    }

    /** One `usize` per offset plus the payload. */
    function GoodBytes(): (b: nat)
      reads this
      ensures Valid() ==> b == USIZE_BYTES * |Contents| + TotalLen(Contents)
    {
      EndsLength(Contents);
      FlattenLength(Contents);
      |lens| * USIZE_BYTES + |concat|
    }
  }

  type TextCol = VarLenCol<char>
  type BytesCol = VarLenCol<u8>

  /** The invariant the layout keeps: offsets are non-decreasing, there is
      one per element, and the last equals the buffer length. */
  lemma VarLenLayout<E>(c: VarLenCol<E>)
    requires c.Valid()
    ensures |c.lens| == |c.Contents|
    ensures forall i, j :: 0 <= i <= j < |c.lens| ==> c.lens[i] <= c.lens[j]
    ensures |c.lens| > 0 ==> c.lens[|c.lens| - 1] == |c.concat|
  {
    EndsMonotone(c.Contents);
  }

  // ---------------------------------------------------------------------------
  // Tuple columns (col_tuple!): one sub-column per component, composed
  // positionally. Without a trait for "any column" the model spells out the
  // arities the system instantiates.

  /** Arity 3 over primitive components: the shape of the new-order batch. */
  class Tuple3Col<A, B, C> {
    const c0: PrimCol<A>
    const c1: PrimCol<B>
    const c2: PrimCol<C>
    ghost var Contents: seq<(A, B, C)>

    ghost predicate Valid()
      reads this, c0, c1, c2
    {
      && c0 as object != c1 && c0 as object != c2 && c1 as object != c2
      && c0.Valid() && c1.Valid() && c2.Valid()
      && |c0.Contents| == |Contents| && |c1.Contents| == |Contents| && |c2.Contents| == |Contents|
      && (forall i :: 0 <= i < |Contents| ==>
            Contents[i] == (c0.Contents[i], c1.Contents[i], c2.Contents[i]))
    }

    constructor (w0: nat, w1: nat, w2: nat)
      ensures Valid() && Contents == [] && fresh(c0) && fresh(c1) && fresh(c2)
      ensures c0.width == w0 && c1.width == w1 && c2.width == w2
    {
      c0 := new PrimCol(w0);
      c1 := new PrimCol(w1);
      c2 := new PrimCol(w2);
      Contents := [];
    }

    /** The last component's length; the others are equal to it. */
    function Len(): (n: nat)
      reads this, c0, c1, c2
      ensures Valid() ==> n == |Contents| == c0.Len() == c1.Len()
    {
      c2.Len()
    }

    function Get(idx: nat): (r: (A, B, C))
      reads this, c0, c1, c2
      requires Valid() && idx < Len()
      ensures r == Contents[idx]
    {
      (c0.Get(idx), c1.Get(idx), c2.Get(idx))
    }

    /** Component k goes to sub-column k. */
    method Push(t: (A, B, C))
      requires Valid()
      modifies this, c0, c1, c2
      ensures Valid() && Contents == old(Contents) + [t]
      ensures c0.Contents == old(c0.Contents) + [t.0]
      ensures c1.Contents == old(c1.Contents) + [t.1]
      ensures c2.Contents == old(c2.Contents) + [t.2]
    {
      c0.Push(t.0);
      c1.Push(t.1);
      c2.Push(t.2);
      Contents := Contents + [t];
    }

    method Clear()
      requires Valid()
      modifies this, c0, c1, c2
      ensures Valid() && Contents == []
      ensures c0.Contents == [] && c1.Contents == [] && c2.Contents == []
    {
      c0.Clear();
      c1.Clear();
      c2.Clear();
      Contents := [];
    }

    /** The sum of the components' payloads. */
    function GoodBytes(): (b: nat)
      reads this, c0, c1, c2
      ensures Valid() ==> b == |Contents| * (c0.width + c1.width + c2.width)
    {
      c0.GoodBytes() + c1.GoodBytes() + c2.GoodBytes()
    }
  }

  /** Arity 4 over (text, bytes, primitive, primitive): the changelog's
      `(String, Vec<u8>, u64, i64)` batch. */
  class Tuple4Col<C, D> {
    const c0: TextCol
    const c1: BytesCol
    const c2: PrimCol<C>
    const c3: PrimCol<D>
    ghost var Contents: seq<(string, seq<u8>, C, D)>

    ghost predicate Valid()
      reads this, c0, c1, c2, c3
    {
      && c2 as object != c3
      && c0.Valid() && c1.Valid() && c2.Valid() && c3.Valid()
      && |c0.Contents| == |Contents| && |c1.Contents| == |Contents|
      && |c2.Contents| == |Contents| && |c3.Contents| == |Contents|
      && (forall i :: 0 <= i < |Contents| ==>
            Contents[i] == (c0.Contents[i], c1.Contents[i], c2.Contents[i], c3.Contents[i]))
    }

    ghost function Repr(): set<object>
    {
      {this, c0, c1, c2, c3}
    }

    constructor (w2: nat, w3: nat)
      ensures Valid() && Contents == []
      ensures fresh(c0) && fresh(c1) && fresh(c2) && fresh(c3)
      ensures c2.width == w2 && c3.width == w3
    {
      c0 := new VarLenCol();
      c1 := new VarLenCol();
      c2 := new PrimCol(w2);
      c3 := new PrimCol(w3);
      Contents := [];
    }

    /** The last component's length; the others are equal to it. */
    function Len(): (n: nat)
      reads this, c0, c1, c2, c3
      ensures Valid() ==> n == |Contents| == c0.Len() == c1.Len() == c2.Len()
    {
      c3.Len()
    }

    function Get(idx: nat): (r: (string, seq<u8>, C, D))
      reads this, c0, c1, c2, c3
      requires Valid() && idx < Len()
      ensures r == Contents[idx]
    {
      (c0.Get(idx), c1.Get(idx), c2.Get(idx), c3.Get(idx))
    }

    /** Component k goes to sub-column k. */
    method Push(t: (string, seq<u8>, C, D))
      requires Valid()
      modifies Repr()
      ensures Valid() && Contents == old(Contents) + [t]
      ensures c0.Contents == old(c0.Contents) + [t.0]
      ensures c1.Contents == old(c1.Contents) + [t.1]
      ensures c2.Contents == old(c2.Contents) + [t.2]
      ensures c3.Contents == old(c3.Contents) + [t.3]
    {
      c0.Push(t.0);
      c1.Push(t.1);
      c2.Push(t.2);
      c3.Push(t.3);
      Contents := Contents + [t];
    }

    method Clear()
      requires Valid()
      modifies Repr()
      ensures Valid() && Contents == []
      ensures c0.Contents == [] && c1.Contents == [] && c2.Contents == [] && c3.Contents == []
    {
      c0.Clear();
      c1.Clear();
      c2.Clear();
      c3.Clear();
      Contents := [];
    }

    /** The sum of the components' payloads. */
    function GoodBytes(): (b: nat)
      reads this, c0, c1, c2, c3
      ensures Valid() ==> b == c0.GoodBytes() + c1.GoodBytes() + c2.GoodBytes() + c3.GoodBytes()
      ensures Valid() ==> b == |Contents| * (2 * USIZE_BYTES + c2.width + c3.width)
                             + TotalLen(c0.Contents) + TotalLen(c1.Contents)
    {
      c0.GoodBytes() + c1.GoodBytes() + c2.GoodBytes() + c3.GoodBytes()
    }
  }
}
