# dataz, modelled in Dafny

dataz generates benchmark data as columns. This project models three parts of it.

- **Column containers** (`src/col.rs`). These are append-only columns: a unit counter, a primitive vector, an option column (a flag vector plus a value column), and text and bytes columns (an offsets vector plus one concatenated buffer). Tuple columns are composed positionally from sub-columns.
- **KVTD changelog generator** (`src/kvtd.rs`). It produces `(key, value, time, diff)` rows in batches:
  - keys are 16 lowercase hex digits;
  - values are a multiplicative hash byte chain modulo 2^64.
- **TPC-C generator** (`src/tpcc.rs`). It covers:
  - the nine tables' cardinalities, and the `gen_batch` of each table;
  - the random string field helpers;
  - the `DateTime` column packing.

Each column is a `class` with a ghost `Contents`, the logical elements pushed since the last `clear`, and a `Valid()` invariant that ties `Contents` to the concrete storage. `push` and `clear` are methods with `modifies`. `len`, `get` and `good_bytes` are functions whose contracts state what they return in terms of `Contents`. The column round trip is: `get(i)` returns the `i`-th element pushed.

The batch arithmetic, the hex encoding, the hash chain, the DateTime packing and the new-order ids are integer functions. The loops that compute them are methods proved equal to those functions, and lemmas state what the functions mean. Examples are round trips, injectivity, and batch lengths that sum to the row count.

The TPC-C tables are classes holding the reusable string buffers the source keeps. Each `GenBatch` pushes the rows of one batch index, and its postcondition states the row shape:
- the ids and the parent ids derived by integer division;
- the length and alphabet of every string field;
- the ranges of the integer draws;
- the customer ids of an order batch being a permutation of `0..3000`.

The random generator (`SmallRng` of the `rand` crate) is an oracle, class `Rand.SmallRng`. A caller may rely only on the range of each draw and on `Shuffle` permuting its input.

Files:
- `base.dfy`: fixed-width integer types, `Option`, `Pow` and arithmetic lemmas;
- `col.dfy`: the columns;
- `kvtd.dfy`: the changelog generator;
- `rand.dfy`: the random oracle;
- `datetimes.dfy`: `DateTime` and its column;
- `tpcc_fields.dfy`: the field helpers;
- `tpcc.dfy`: the tables.

Where this model departs from what one might expect, it follows the code:
- Inside kvtd's `gen_batch` the loop variable shadows the batch index (`src/kvtd.rs:69`). Every batch's rows are therefore computed from their position within the batch: keys, values and times start at 0 again in each batch.
- `gen_batch` never clears the batch it appends to.
- `src/lib.rs` describes an older trait interface in which `gen_batch` clears the batch. The model follows `src/kvtd.rs` and `src/tpcc.rs`.

## Model

| member | source | states |
|---|---|---|
| `Col.UnitCol.Len` | src/col.rs:113-115 | the count is the number of elements pushed |
| `Col.UnitCol.Get` | src/col.rs:117-123 | succeeds exactly when `idx < len`, otherwise panics with that index and length |
| `Col.UnitCol.Push` | src/col.rs:125-127 | appends one element: the count grows by exactly one |
| `Col.UnitCol.Clear` | src/col.rs:129-131 | empties the column: the count is 0 |
| `Col.UnitCol.GoodBytes` | src/col.rs:133-135 | the size of a `usize` (8), whatever has been pushed |
| `Col.PrimCol.Len` | src/col.rs:141-143 | the number of elements pushed |
| `Col.PrimCol.Get` | src/col.rs:145-147 | element `idx` is the `idx`-th value pushed |
| `Col.PrimCol.Push` | src/col.rs:149-151 | appends the value; earlier elements are unchanged |
| `Col.PrimCol.Clear` | src/col.rs:153-155 | empties the column |
| `Col.PrimCol.GoodBytes` | src/col.rs:157-159 | `len * size_of::<T>()` |
| `Col.OptionCol.Len` | src/col.rs:180-184 | the flag count, which equals the element count and the value column's length |
| `Col.OptionCol.Get` | src/col.rs:186-194 | the `idx`-th element pushed; `None` exactly when its flag is false |
| `Col.OptionCol.Push` | src/col.rs:196-209 | `Some(v)` stores flag true and `v`; `None` stores flag false and the default placeholder; the flag and value lengths stay equal |
| `Col.OptionCol.Clear` | src/col.rs:211-215 | empties the flags and the value column |
| `Col.OptionCol.GoodBytes` | src/col.rs:217-220 | one byte per flag plus the value column's `good_bytes`, i.e. `len * (1 + width)` |
| `Col.VarLenCol.Len` | src/col.rs:224-227 | the offset count is the number of strings pushed (text and bytes alike, lines 223-283) |
| `Col.VarLenCol.Get` | src/col.rs:229-234 | the buffer slice from the previous end offset (0 for the first) to `lens[idx]` is the `idx`-th string pushed |
| `Col.VarLenCol.Push` | src/col.rs:236-240 | appends the string to the buffer and records the new buffer length as its end offset |
| `Col.VarLenCol.Clear` | src/col.rs:242-246 | empties both the offsets and the buffer |
| `Col.VarLenCol.GoodBytes` | src/col.rs:248-251 | 8 bytes per offset plus the total length of the strings |
| `Col.VarLenLayout` | src/col.rs:236-240 | in a valid column the offsets are non-decreasing, one per element, and the last equals the buffer length |
| `Col.FlattenSlice` | src/col.rs:229-234 | element `i` of a sequence of strings sits in their concatenation between its start and end offsets |
| `Col.EndsMonotone` | src/col.rs:236-240 | the end offsets of pushed strings never decrease and the last is the buffer length |
| `Col.FlattenLength` | src/col.rs:248-251 | the buffer length is the sum of the string lengths |
| `Col.Tuple3Col.Len` | src/col.rs:290-300 | the last component's length, equal to every other component's and to the element count |
| `Col.Tuple3Col.Get` | src/col.rs:302-305 | the `idx`-th tuple pushed, assembled from the components |
| `Col.Tuple3Col.Push` | src/col.rs:307-313 | component k is pushed into sub-column k; all stay the same length |
| `Col.Tuple3Col.Clear` | src/col.rs:315-320 | clears every sub-column |
| `Col.Tuple3Col.GoodBytes` | src/col.rs:322-329 | the sum of the components' `good_bytes`, i.e. `len * (w0 + w1 + w2)` |
| `Col.Tuple4Col.Len` | src/col.rs:290-300 | the last component's length, equal to every other component's and to the element count |
| `Col.Tuple4Col.Get` | src/col.rs:302-305 | the `idx`-th tuple pushed |
| `Col.Tuple4Col.Push` | src/col.rs:307-313 | component k is pushed into sub-column k (text, bytes, two primitives) |
| `Col.Tuple4Col.Clear` | src/col.rs:315-320 | clears every sub-column |
| `Col.Tuple4Col.GoodBytes` | src/col.rs:322-329 | the sum of the components' `good_bytes`, i.e. `len * (16 + w2 + w3)` plus the text and byte payloads |
| `Kvtd.NumBatches` | src/kvtd.rs:48-50 | the ceiling division: the fewest batches of `max_rows_per_batch` rows that hold all rows |
| `Kvtd.BatchLen` | src/kvtd.rs:57-62 | the saturating length of a batch never exceeds `max_rows_per_batch` nor `num_rows` |
| `Kvtd.BatchLenCases` | src/kvtd.rs:57-65 | a batch is empty exactly when its index is at least `num_batches`; a valid batch holds `min(max, num_rows - idx*max)` rows |
| `Kvtd.RowsBeforeIsPrefix` | src/kvtd.rs:57-62 | the first `k` batches hold `min(k*max, num_rows)` rows |
| `Kvtd.BatchLensSumToRows` | src/kvtd.rs:48-62 | the batch lengths over `0..num_batches` sum to `num_rows` |
| `Kvtd.Hex` | src/kvtd.rs:125-136 | the hex form of a value has exactly the requested number of digits |
| `Kvtd.HexAlphabet` | src/kvtd.rs:127-129 | every digit is one of `0-9a-f` |
| `Kvtd.HexRoundTrip` | src/kvtd.rs:125-136 | reading `n` digits back in base 16 gives the value modulo `16^n` |
| `Kvtd.HexValueOfDigits` | src/kvtd.rs:125-136 | a value below `16^n` reads back exactly from its `n` digits |
| `Kvtd.KeyRoundTrip` | src/kvtd.rs:125-136 | reading a 16-digit key back gives the 64-bit value |
| `Kvtd.KeyInjective` | src/kvtd.rs:125-136 | distinct 64-bit values have distinct keys |
| `Kvtd.HexOfZero` | src/kvtd.rs:151 | the digits of 0 are all `0` |
| `Kvtd.HexOfAllOnes` | src/kvtd.rs:169 | the digits of `16^n - 1` are all `f` |
| `Kvtd.HexVectorsSmall` | src/kvtd.rs:151-161 | the keys of 0, 1, 2 and 10 match the test vectors |
| `Kvtd.HexVectorsTwoDigits` | src/kvtd.rs:167-168 | the keys of 16 and 17 match the test vectors |
| `Kvtd.HexVectorMax` | src/kvtd.rs:169 | the key of `u64::MAX` is `ffffffffffffffff` |
| `Kvtd.ToHexStep` | src/kvtd.rs:133-134 | one step of the loop emits the next nibble and shifts the word left by 4 modulo 2^64 |
| `Kvtd.ToHex` | src/kvtd.rs:125-136 | appends, without clearing, the 16 hex digits of `x`, most significant first |
| `Kvtd.HashWord` | src/kvtd.rs:101-103 | every hash word is a 64-bit value |
| `Kvtd.HashWordStep` | src/kvtd.rs:103 | one more `wrapping_mul` by the prime gives the next hash word |
| `Kvtd.HashWordNonZero` | src/kvtd.rs:98-101 | seeding with `row + 1` keeps every hash word of a row non-zero |
| `Kvtd.RowBytes` | src/kvtd.rs:101-106 | a row's value has exactly `val_bytes` bytes |
| `Kvtd.RowBytesPrefix` | src/kvtd.rs:102-106 | asking for more value bytes only extends a row's value |
| `Kvtd.ValBytesLayout` | src/kvtd.rs:92-107 | `Kvtd.ValBytes` models the byte stream the nested loop writes; row `start + j` occupies bytes `j*vb .. (j+1)*vb` of it |
| `Kvtd.ValBytesLength` | src/kvtd.rs:92-107 | the output holds `len * val_bytes` bytes |
| `Kvtd.GenVals` | src/kvtd.rs:92-108 | clears the column, then writes the hash-chain bytes of rows `start..start+len` |
| `Kvtd.ValueVectors` | src/serde.rs:55-59 | the values of rows 0-2 with 4 bytes are `[197,153,189,113]`, `[138,50,122,226]`, `[79,203,55,83]` |
| `Kvtd.Keys` | src/kvtd.rs:84-90 | the keys of `len` rows take `16 * len` characters |
| `Kvtd.GenKeys` | src/kvtd.rs:84-90 | clears the string, then writes the keys of `start..start+len` in order |
| `Kvtd.GenTimes` | src/kvtd.rs:111-117 | clears the column, then writes `start..start+len` ascending |
| `Kvtd.GenDiffs` | src/kvtd.rs:120-123 | exactly `len` copies of 1 |
| `Kvtd.GenBatch` | src/kvtd.rs:56-79 | keeps the rows already in the batch and appends `BatchLen` rows, row `j` computed from its position `j` within the batch; `Kvtd.Row` models the tuple pushed at lines 69-77 and `Kvtd.BatchRows` the sequence of them |
| `Kvtd.NewBatch` | src/kvtd.rs:54 | a fresh empty batch column whose `u64` and `i64` components are 8 bytes wide, as `size_of` gives them |
| `Kvtd.ExampleBatch` | src/serde.rs:47-61 | with 4 value bytes, 3 rows and 3 rows per batch there is one batch, and its rows are the serialized example |
| `Rand.SmallRng.GenRange` | src/tpcc.rs:920 | a draw from `lo..hi` lies in that half-open range |
| `Rand.SmallRng.GenRangeInclusive` | src/tpcc.rs:862 | a draw from `lo..=hi` lies in that closed range |
| `Rand.SmallRng.Shuffle` | src/tpcc.rs:703 | the shuffled sequence is a permutation of its input |
| `Rand.Swap` | src/tpcc.rs:703 | exchanging two positions changes only those two |
| `Rand.SwapPreservesMultiset` | src/tpcc.rs:703 | exchanging two positions keeps the multiset of elements |
| `DateTimes.LeBytes` | src/tpcc.rs:955-958 | `to_le_bytes` of an `n`-byte value has `n` bytes |
| `DateTimes.LeBytesRoundTrip` | src/tpcc.rs:943-958 | reading back the little-endian bytes of `x` gives `x` modulo `256^n` |
| `DateTimes.FromLeBytesRoundTrip` | src/tpcc.rs:943-958 | writing out the value of some bytes gives those bytes back |
| `DateTimes.FromLeBytesAppend` | src/tpcc.rs:955-959 | bytes appended after `a` count in units of `256^len(a)` |
| `DateTimes.PackValue` | src/tpcc.rs:955-960 | `DateTimes.Pack` models the bytes push writes (lines 955-960); the stored word is `date + time * 2^32`: the date in the low little-endian bytes |
| `DateTimes.UnpackPack` | src/tpcc.rs:943-960 | `DateTimes.Unpack` models get (lines 943-953); unpacking the word that push stores gives back the `DateTime` |
| `DateTimes.PackInjective` | src/tpcc.rs:955-960 | distinct `DateTime`s are stored as distinct words |
| `DateTimes.ToU64Value` | src/tpcc.rs:972-975 | `DateTimes.ToU64` models `From<DateTime> for u64` (lines 972-976); `u64::from(t)` is `date * 2^32 + time`, with no wrap-around |
| `DateTimes.ToU64IsSwappedPack` | src/tpcc.rs:972-975 | the serialized value is the stored word with date and time exchanged |
| `DateTimes.ToU64Vector` | src/tpcc.rs:1041 | the test generation time serializes to 193157564249808 |
| `DateTimes.DateTimeCol.Len` | src/tpcc.rs:939-941 | the number of `DateTime`s pushed |
| `DateTimes.DateTimeCol.Get` | src/tpcc.rs:943-953 | the `idx`-th `DateTime` pushed |
| `DateTimes.DateTimeCol.Push` | src/tpcc.rs:955-960 | appends the packed word of `t` |
| `DateTimes.DateTimeCol.Clear` | src/tpcc.rs:962-964 | empties the column |
| `DateTimes.DateTimeCol.GoodBytes` | src/tpcc.rs:966-968 | 8 bytes per `DateTime` |
| `TpccFields.AlphabetSizes` | src/tpcc.rs:84-90 | the n-string alphabet has 10 digits, the a-string alphabet 62 characters |
| `TpccFields.RandInt` | src/tpcc.rs:860-863 | a value in `[min, max]`, both inclusive (clause 2.1.4 of the TPC-C standard) |
| `TpccFields.RandState` | src/tpcc.rs:865-868 | appends two a-string characters |
| `TpccFields.RandZip` | src/tpcc.rs:870-875 | appends 9 characters, 4 digits then `11111` (clause 4.3.2.7 of the TPC-C standard) |
| `TpccFields.RandTax` | src/tpcc.rs:877-880 | the tax draw is at most 2000 ten-thousandths, i.e. in [0.0000, 0.2000] (clause 2.1.5) |
| `TpccFields.RandOriginalString` | src/tpcc.rs:882-898 | appends 26 to 50 a-string characters; in the marker branch `ORIGINAL` sits at offset `before` with at least one character after it (clause 4.3.3.1) |
| `TpccFields.RandStringLen` | src/tpcc.rs:900-915 | appends between `min_len` and `max_len` characters of the alphabet, keeping what was there |
| `TpccFields.RandString` | src/tpcc.rs:917-922 | appends exactly `len` characters, each from the alphabet, keeping what was there |
| `TpccFields.DrawnConcat` | src/tpcc.rs:892-894 | two strings over an alphabet concatenate to one over it |
| `TpccFields.Reuse` | src/tpcc.rs:924-931 | clears the buffer first, so the result depends only on the fill and the draws |
| `Tpcc.TableNamesDistinct` | src/tpcc.rs:50-60 | the nine tables the set visits have distinct names; `Tpcc.TableKind.Name` models the nine `name()` functions (lines 111-113, 172-174, 264-266, 393-395, 493-495, 620-622, 678-680, 750-752, 834-836) |
| `Tpcc.Cardinalities` | src/tpcc.rs:75-81 | `Tpcc.TableKind.NumBatches` models the nine `num_batches` bodies (lines 115-116, 176-177, 268-269, 397-398, 497-498, 624-629, 682-683, 754-755, 838-839) over the constants of lines 75-81, and this lemma states the hierarchy they form: stock `W*100000`, districts `W*10`, customers and history 3000 per district, one order batch per district, one order-line batch per order, 900 new orders per district |
| `Tpcc.ParentId` | src/tpcc.rs:302 | the parent of child `id` is the `p` with `p*per <= id < (p+1)*per` |
| `Tpcc.ParentOfValidChild` | src/tpcc.rs:535-536 | a child index below `parents * per` names a parent below `parents` |
| `Tpcc.ParentsExist` | src/tpcc.rs:781-783 | every valid stock, district, customer, history, order, order-line and new-order index derives district and warehouse ids that are valid batch indexes of the parent tables |
| `Tpcc.ItemTable.Init` | src/tpcc.rs:100-108 | starts with empty name and data buffers |
| `Tpcc.ItemTable.GenBatch` | src/tpcc.rs:120-139 | nothing for `idx >= 100000`; otherwise one row with id `idx`, image id in `[1, 10000]`, a 14-24 character name, price in `[100, 10000]` cents, and an original-data field |
| `Tpcc.AddressBuffers.Fill` | src/tpcc.rs:202-215 | a 6-10 character name, two streets and a city of 10-20 characters, a state and a zip |
| `Tpcc.WarehouseTable.Init` | src/tpcc.rs:156-169 | keeps the configuration, with fresh buffers |
| `Tpcc.WarehouseTable.GenBatch` | src/tpcc.rs:181-221 | nothing past `W`; otherwise one row with id `idx`, a name, an address and a tax draw of at most 2000 |
| `Tpcc.StockTable.Init` | src/tpcc.rs:243-261 | keeps the configuration, with ten empty district buffers and an empty data buffer |
| `Tpcc.StockTable.GenBatch` | src/tpcc.rs:273-360 | nothing past `W*100000`; otherwise one row with id `idx`, warehouse `idx/100000`, quantity in `[10, 100]`, the first five of ten 24-character district infos, zero counters and an original-data field |
| `Tpcc.DistrictTable.Init` | src/tpcc.rs:377-390 | keeps the configuration, with fresh buffers |
| `Tpcc.DistrictTable.GenBatch` | src/tpcc.rs:402-456 | nothing past `W*10`; otherwise one row with id `idx`, warehouse `idx/10`, name, address, tax and next order id 3001 |
| `Tpcc.CustomerTable.Init` | src/tpcc.rs:475-490 | keeps the configuration, with empty buffers |
| `Tpcc.CustomerTable.GenBatch` | src/tpcc.rs:502-597 | nothing past `W*30000`; otherwise one row with id `idx`, district `idx/3000`, warehouse `district/10`, last name `TODO`, middle `OE`, an 8-16 character first name, an address and 300-500 characters of data; the phone buffer holds 16 digits |
| `Tpcc.HistoryTable.Init` | src/tpcc.rs:609-617 | keeps the configuration, with an empty data buffer |
| `Tpcc.HistoryTable.GenBatch` | src/tpcc.rs:632-655 | nothing past `W*30000`; otherwise one row for customer `idx` with its district and warehouse as both customer and payment ids, dated `now`, with 12-24 characters of data |
| `Tpcc.Range` | src/tpcc.rs:702 | `0..n` in ascending order |
| `Tpcc.OrderTable.Init` | src/tpcc.rs:667-675 | keeps the configuration, with no customer ids |
| `Tpcc.OrderTable.GenBatch` | src/tpcc.rs:687-727 | nothing past `W*10`; otherwise keeps earlier rows and appends 3000 orders with ids `0..2999` for district `idx`. The customer ids are a permutation of `0..3000` in position order. The carrier id is present, in `[1, 10]`, exactly for orders below 2001. The line count is in `[5, 15]`, and all-local is 1 |
| `Tpcc.PermutationOfRange` | src/tpcc.rs:701-707 | a shuffle of `0..n` holds each id below `n` exactly once, all distinct |
| `Tpcc.RangeCountsOnce` | src/tpcc.rs:702 | each id below `n` occurs once in `0..n` |
| `Tpcc.TwiceCountsTwice` | src/tpcc.rs:705-707 | a value at two positions occurs at least twice |
| `Tpcc.OrderLineTable.Init` | src/tpcc.rs:739-747 | keeps the configuration, with an empty info buffer |
| `Tpcc.OrderLineTable.GenBatch` | src/tpcc.rs:759-817 | nothing past `W*30000`; otherwise keeps earlier rows and appends 5 to 15 lines of order `idx`. Each line has district `idx/3000`, line numbers `0..n-1`, an item in `[1, 100000]`, quantity 5, and a 24-character info. The delivery date is `now` exactly when the table-wide order id is below 2101 |
| `Tpcc.NewOrderWindow` | src/tpcc.rs:851-854 | `Tpcc.NewOrderRow` models the three-id formula of lines 851-854; new-order row `d*900 + k` names order `2100 + k` of district `d` in warehouse `d/10` |
| `Tpcc.NewOrderIdBounds` | src/tpcc.rs:851-852 | new-order ids lie in `[2100, 3000)` |
| `Tpcc.NewOrderVectors` | src/tpcc.rs:1079-1090 | the first ten new-order rows are `(2100+k, 0, 0)` |
| `Tpcc.NewBatch` | src/tpcc.rs:844 | a fresh empty new-order column whose three `u64` components are 8 bytes wide |
| `Tpcc.NewOrderTable.Init` | src/tpcc.rs:826-831 | keeps the configuration |
| `Tpcc.NewOrderTable.GenBatch` | src/tpcc.rs:843-857 | nothing past `W*9000`; otherwise appends exactly the new-order row of `idx` to the tuple column |

## Left out

- Fixed-width overflow of lengths and products is not modelled. Lengths, counts and the batch products (`idx * max_rows_per_batch`, `W * 100000`) are unbounded `nat`; the source would panic or wrap past 2^64. The values that do go through 64-bit arithmetic (the hash chain, the hex shift, the DateTime packing) are written modulo 2^64.
- Kvtd.NumBatches: requires `max_rows_per_batch > 0`. With a zero batch size the source panics: it divides by zero, and when `num_rows` is also 0 the subtraction `num_rows + max_rows_per_batch - 1` underflows first. The model does not represent that panic.
- Kvtd.GenVals: requires `start + len < 2^64`, where the source's `start..start + len` would overflow.
- Kvtd.GenKeys and Kvtd.GenTimes: the same 2^64 requirement, for the same reason.
- Floating-point fields are not modelled: `i_price`, `w_tax`/`d_tax`, `INITIAL_YTD`, `c_credit_lim`, `c_discount`, `c_balance`, `ol_amount` and `h_amount`. Only the integer draws behind the price and the tax are kept. The float draws of `c_discount` and `ol_amount` still consume random numbers, but the oracle makes them invisible.
- The algorithm of `SmallRng` and of `SliceRandom::shuffle` belongs to the `rand` crate, so both are an oracle with a stand-in body. For the same reason the CSV golden strings of the TPC-C test cannot be reproduced. Only their structural facts are stated: lengths, ranges, the zip suffix, the new-order ids and the serialized `now`.
- Tpcc.OrderTable.GenBatch: the `o_c_ids` vector is shuffled as a sequence value rather than in place.
- The `test_table` CSV harness (`src/tpcc.rs:1092-1116`), the benches and the serde adapter are not modelled. Only the serde test's kvtd rows are used, as a vector.
- `src/lib.rs` is not modelled: it holds only trait declarations.
- The `Set::tables` visitor is not modelled beyond the fixed list of tables.
- Capacity hints (`with_capacity`, `reserve`), `debug_assert` build modes and `std::hint::black_box` are not observable, so they are left out. The customer and stock generators' draws for the fields passed to `black_box` are kept; the fields themselves are not pushed.
- Tuple columns are modelled only at the arities the generators instantiate: 3 (new-order) and 4 (kvtd). Arities 5 to 12 come from the same macro.
- `Col.PrimCol` takes its element width as a constructor argument, since Dafny has no `size_of`. The batch columns the generators use get the 8-byte widths of `u64` and `i64` from `Kvtd.NewBatch` and `Tpcc.NewBatch`.
- Without traits there is no generic "any column" in the model. The option column's value column is a primitive column. The TPC-C tables other than new-order push into `Tpcc.Batch`, a column seen only through the rows it holds.
- Text columns hold characters standing for the UTF-8 bytes of a Rust `String`. All generated text is ASCII, so the two coincide.
- Column `get` with an out-of-bounds index panics in the source. Every column's `Get` except the unit column's therefore requires `idx < Len()`. The unit column checks the bound itself, and its `Get` models both outcomes.
- The string helpers index into their alphabet, which panics on an empty one. Their preconditions require a non-empty alphabet whenever something is drawn.
- TpccFields.Reuse: only the `Original` fill is stated without its optional marker position. The marker position is stated by `RandOriginalString`.
