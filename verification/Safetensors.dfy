/** The bounded validation of a safetensors layout. */
module Safetensors {
  import opened Prelude
  import opened Json

  const MAX_SAFETENSORS_HEADER_BYTES: nat := 16 * 1024 * 1024

  datatype Fault =
    | INVALID_FILE | INVALID_HEADER | INVALID_METADATA | INVALID_TENSOR | UNSUPPORTED_DTYPE | SHAPE_EXCEEDS_DATA
    | RANGE_INCONSISTENT | NO_TENSORS | NOT_CONTIGUOUS | UNREFERENCED_BYTES

  datatype Range = Range(start: nat, end: nat)

  function DtypeBytes(dtype: string): Option<nat> {
    if dtype in {"BOOL", "F8_E4M3", "F8_E5M2", "I8", "U8"} then Some(1)
    else if dtype in {"BF16", "F16", "I16", "U16"} then Some(2)
    else if dtype in {"F32", "I32", "U32"} then Some(4)
    else if dtype in {"F64", "I64", "U64"} then Some(8)
    else None
  }

  // ---------------------------------------------------------------- shapes

  function Product(shape: seq<nat>): nat {
    if shape == [] then 1 else Product(shape[..|shape| - 1]) * shape[|shape| - 1]
  }

  /** A shape of one dimension has that many elements, and shapes multiply. */
  lemma {:induction false} ProductsMultiply(a: seq<nat>, b: seq<nat>, n: nat)
    ensures Product([n]) == n && Product(a + [n]) == Product(a) * n
    ensures Product(a + b) == Product(a) * Product(b)
  {
    assert [n][..0] == [] && (a + [n])[..|a|] == a;
    if b == [] {
      assert a + b == a;
    } else {
      var last := b[|b| - 1];
      ProductsMultiply(a, b[..|b| - 1], n);
      assert (a + b)[..|a + b| - 1] == a + b[..|b| - 1];
      Associate(Product(a), Product(b[..|b| - 1]), last);
    }
  }

  lemma Associate(x: nat, y: nat, z: nat)
    ensures (x * y) * z == x * (y * z)
  {
  }

  /** Every partial product of the shape stays within the data section. */
  ghost predicate ShapeFits(shape: seq<nat>, width: nat, dataBytes: nat) {
    forall k :: 1 <= k <= |shape| ==> Product(shape[..k]) * width <= dataBytes
  }

  /** The dimension loop, with its early exit: None when it raises. */
  method CountElements(shape: seq<nat>, width: nat, dataBytes: nat) returns (count: Option<nat>)
    ensures count.Some? <==> ShapeFits(shape, width, dataBytes)
    ensures count.Some? ==> count.value == Product(shape)
  {
    var elementCount: nat := 1;
    for d := 0 to |shape|
      invariant elementCount == Product(shape[..d])
      invariant ShapeFits(shape[..d], width, dataBytes)
    {
      assert shape[..d + 1][..d] == shape[..d];
      elementCount := elementCount * shape[d];
      assert elementCount == Product(shape[..d + 1]);
      if elementCount * width > dataBytes { return None; }
      ghost var seen := shape[..d + 1];
      forall k | 1 <= k <= |seen| ensures Product(seen[..k]) * width <= dataBytes {
        if k <= d { assert seen[..k] == shape[..d][..k]; } else { assert seen[..k] == seen; }
      }
    }
    assert shape[..|shape|] == shape;
    return Some(elementCount);
  }

  function BeforeZero(shape: seq<nat>): seq<nat> {
    if shape == [] || shape[0] == 0 then [] else [shape[0]] + BeforeZero(shape[1..])
  }

  lemma {:induction false} BeforeZeroIsPrefix(shape: seq<nat>)
    ensures BeforeZero(shape) <= shape
    ensures forall k :: 0 <= k < |BeforeZero(shape)| ==> shape[k] > 0
    ensures |BeforeZero(shape)| < |shape| ==> shape[|BeforeZero(shape)|] == 0
  {
    if shape != [] && shape[0] != 0 { BeforeZeroIsPrefix(shape[1..]); }
  }

  /** Partial products of positive dimensions only grow. */
  lemma {:induction false} ProductGrows(shape: seq<nat>, j: nat, k: nat)
    requires j <= k <= |shape| && forall i :: 0 <= i < k ==> shape[i] > 0
    ensures Product(shape[..j]) <= Product(shape[..k])
    decreases k - j
  {
    if j < k {
      ProductGrows(shape, j, k - 1);
      assert shape[..k][..k - 1] == shape[..k - 1];
      var p, d := Product(shape[..k - 1]), shape[k - 1];
      assert p * d == p + p * (d - 1) && p * (d - 1) >= 0;
    }
  }

  lemma {:induction false} ProductVanishes(shape: seq<nat>, z: nat, k: nat)
    requires z < k <= |shape| && shape[z] == 0
    ensures Product(shape[..k]) == 0
    decreases k
  {
    assert shape[..k][..k - 1] == shape[..k - 1];
    if z < k - 1 { ProductVanishes(shape, z, k - 1); }
  }

  /**
   * Exactly what the early exit tests: the product of the dimensions before the first zero.
   * For a zero-free shape that is the whole product.
   */
  lemma ShapeLoopExact(shape: seq<nat>, width: nat, dataBytes: nat)
    ensures ShapeFits(shape, width, dataBytes) <==>
      BeforeZero(shape) == [] || Product(BeforeZero(shape)) * width <= dataBytes
    ensures 0 !in shape && shape != [] ==> (ShapeFits(shape, width, dataBytes) <==> Product(shape) * width <= dataBytes)
  {
    BeforeZeroIsPrefix(shape);
    var z := |BeforeZero(shape)|;
    assert shape[..z] == BeforeZero(shape);
    if BeforeZero(shape) == [] || Product(shape[..z]) * width <= dataBytes {
      forall k | 1 <= k <= |shape| ensures Product(shape[..k]) * width <= dataBytes {
        if k <= z {
          ProductGrows(shape, k, z);
          MulMonotone(Product(shape[..k]), Product(shape[..z]), width);
        } else {
          ProductVanishes(shape, z, k);
        }
      }
    }
    if 0 !in shape { assert z == |shape| && shape[..z] == shape; }
  }

  lemma MulMonotone(a: nat, b: nat, w: nat)
    requires a <= b
    ensures a * w <= b * w
  {
  }

  /** A zero-free shape whose size equals its byte range always passes the loop. */
  lemma NeverRejectsConsistent(shape: seq<nat>, width: nat, dataBytes: nat, range: Range)
    requires 0 !in shape && range.start <= range.end <= dataBytes && range.end - range.start == Product(shape) * width
    ensures ShapeFits(shape, width, dataBytes)
  {
    ShapeLoopExact(shape, width, dataBytes);
  }

  /** With a zero in the shape the answer depends on the order of the dimensions. */
  lemma ZeroShapesDependOnOrder()
    ensures Product([2, 0]) == Product([0, 2]) == 0
    ensures !ShapeFits([2, 0], 1, 1) && ShapeFits([0, 2], 1, 1)
  {
    assert [2, 0][..1] == [2] && [0, 2][..1] == [0];
    assert [2][..0] == [] && [0][..0] == [];
    assert Product([2]) == 2 && Product([0]) == 0;
    ShapeLoopExact([0, 2], 1, 1);
    assert Product([2, 0][..1]) * 1 > 1;
  }

  // ---------------------------------------------------------------- one header entry

  predicate NonNegativeInts(items: seq<Json>) {
    forall i :: 0 <= i < |items| ==> items[i].Int? && items[i].i >= 0
  }

  function Dimensions(items: seq<Json>): seq<nat>
    requires NonNegativeInts(items)
  {
    seq(|items|, i requires 0 <= i < |items| => items[i].i)
  }

  /** The type and range tests on one tensor record. */
  predicate WellTyped(record: Json, dataBytes: nat) {
    && record.Obj?
    && var dtype, shape := Get(record.fields, "dtype"), Get(record.fields, "shape");
       var offsets := Get(record.fields, "data_offsets");
    && dtype.Some? && dtype.value.Str?
    && shape.Some? && shape.value.Arr? && NonNegativeInts(shape.value.items)
    && offsets.Some? && offsets.value.Arr? && |offsets.value.items| == 2
    && offsets.value.items[0].Int? && offsets.value.items[1].Int?
    && 0 <= offsets.value.items[0].i <= offsets.value.items[1].i <= dataBytes
  }

  function RangeOf(record: Json, dataBytes: nat): Range
    requires WellTyped(record, dataBytes)
  {
    var offsets := Get(record.fields, "data_offsets").value.items;
    Range(offsets[0].i, offsets[1].i)
  }

  /** A record that passes every per-tensor check. */
  ghost predicate TensorOk(record: Json, dataBytes: nat) {
    && WellTyped(record, dataBytes)
    && var width := DtypeBytes(Get(record.fields, "dtype").value.s);
       var shape := Dimensions(Get(record.fields, "shape").value.items);
       var range := RangeOf(record, dataBytes);
       && width.Some? && ShapeFits(shape, width.value, dataBytes)
       && range.end - range.start == Product(shape) * width.value
  }

  predicate IsMetadata(entry: (string, Json)) {
    entry.0 == "__metadata__"
  }

  ghost predicate EntryOk(entry: (string, Json), dataBytes: nat) {
    if IsMetadata(entry) then entry.1.Obj? else entry.0 != "" && TensorOk(entry.1, dataBytes)
  }

  ghost predicate EntriesOk(entries: seq<(string, Json)>, dataBytes: nat) {
    forall e :: e in entries ==> EntryOk(e, dataBytes)
  }

  /** The byte ranges of the tensors, in header order. */
  function Ranges(entries: seq<(string, Json)>, dataBytes: nat): seq<Range> {
    if entries == [] then []
    else
      var rest := Ranges(entries[..|entries| - 1], dataBytes);
      var last := entries[|entries| - 1];
      if IsMetadata(last) || !WellTyped(last.1, dataBytes) then rest else rest + [RangeOf(last.1, dataBytes)]
  }

  // ---------------------------------------------------------------- tilings

  predicate Contains(r: Range, b: nat) {
    r.start <= b < r.end
  }

  /** How many ranges hold byte `b`. */
  function Cover(ranges: seq<Range>, b: nat): nat {
    if ranges == [] then 0 else (if Contains(ranges[0], b) then 1 else 0) + Cover(ranges[1..], b)
  }

  /**
   * Every byte of the data section belongs to exactly one range, and an empty range never
   * stands strictly inside another.
   */
  ghost predicate Tiles(ranges: seq<Range>, dataBytes: nat) {
    && (forall b: nat :: b < dataBytes ==> Cover(ranges, b) == 1)
    && (forall x, y :: x in ranges && y in ranges && x.start == x.end ==> !(y.start < x.start < y.end))
  }

  /** Headers are acceptable when their entries pass, there is a tensor, and the tensors tile the data. */
  ghost predicate Acceptable(entries: seq<(string, Json)>, dataBytes: nat) {
    EntriesOk(entries, dataBytes) && Ranges(entries, dataBytes) != [] && Tiles(Ranges(entries, dataBytes), dataBytes)
  }

  // ---------------------------------------------------------------- sorting

  predicate LexLeq(a: Range, b: Range) {
    a.start < b.start || (a.start == b.start && a.end <= b.end)
  }

  predicate Sorted(s: seq<Range>) {
    forall i, j :: 0 <= i < j < |s| ==> LexLeq(s[i], s[j])
  }

  function Insert(x: Range, s: seq<Range>): seq<Range> {
    if s == [] || LexLeq(x, s[0]) then [x] + s else [s[0]] + Insert(x, s[1..])
  }

  /** `sorted`: tuples in lexicographic order. */
  function Sort(s: seq<Range>): seq<Range> {
    if s == [] then [] else Insert(s[0], Sort(s[1..]))
  }

  lemma {:induction false} InsertSorts(x: Range, s: seq<Range>)
    requires Sorted(s)
    ensures Sorted(Insert(x, s))
    ensures forall y :: y in Insert(x, s) <==> y == x || y in s
    ensures forall b: nat :: Cover(Insert(x, s), b) == Cover([x] + s, b)
  {
    if s != [] && !LexLeq(x, s[0]) {
      InsertSorts(x, s[1..]);
      var t := Insert(x, s[1..]);
      assert s == [s[0]] + s[1..];
      forall i | 0 <= i < |t| ensures LexLeq(s[0], t[i]) { assert t[i] in t; }
      forall b: nat ensures Cover([s[0]] + t, b) == Cover([x] + s, b) {
        assert ([s[0]] + t)[1..] == t && ([x] + s)[1..] == s && ([x] + s[1..])[1..] == s[1..];
      }
    } else {
      forall i | 0 <= i < |s| ensures LexLeq(x, s[i]) { if i > 0 { assert LexLeq(s[0], s[i]); } }
    }
  }

  lemma {:induction false} SortSorts(s: seq<Range>)
    ensures Sorted(Sort(s))
    ensures forall y :: y in Sort(s) <==> y in s
    ensures forall b: nat :: Cover(Sort(s), b) == Cover(s, b)
  {
    if s != [] {
      SortSorts(s[1..]);
      InsertSorts(s[0], Sort(s[1..]));
      assert s == [s[0]] + s[1..];
      forall b: nat ensures Cover(Sort(s), b) == Cover(s, b) {
        assert ([s[0]] + Sort(s[1..]))[1..] == Sort(s[1..]);
      }
    }
  }

  // ---------------------------------------------------------------- the contiguity scan

  /** What the scan checks from `from` on. */
  predicate Contiguous(s: seq<Range>, from: nat, dataBytes: nat) {
    if s == [] then from == dataBytes else s[0].start == from && Contiguous(s[1..], s[0].end, dataBytes)
  }

  predicate Bounded(s: seq<Range>, dataBytes: nat) {
    forall x :: x in s ==> x.start <= x.end <= dataBytes
  }

  ghost predicate TilesFrom(s: seq<Range>, from: nat, dataBytes: nat) {
    && (forall x :: x in s ==> from <= x.start)
    && (forall b: nat :: from <= b < dataBytes ==> Cover(s, b) == 1)
    && (forall x, y :: x in s && y in s && x.start == x.end ==> !(y.start < x.start < y.end))
  }

  lemma {:induction false} NoCoverBelow(s: seq<Range>, from: nat, b: nat)
    requires b < from && forall x :: x in s ==> from <= x.start
    ensures Cover(s, b) == 0
  {
    if s != [] { NoCoverBelow(s[1..], from, b); }
  }

  lemma {:induction false} ContiguousTiles(s: seq<Range>, from: nat, dataBytes: nat)
    requires Contiguous(s, from, dataBytes) && Bounded(s, dataBytes)
    ensures TilesFrom(s, from, dataBytes)
  {
    if s != [] {
      var x, rest := s[0], s[1..];
      ContiguousTiles(rest, x.end, dataBytes);
      assert s == [x] + rest;
      forall b: nat | from <= b < dataBytes ensures Cover(s, b) == 1 {
        if b < x.end { NoCoverBelow(rest, x.end, b); }
      }
    }
  }

  lemma {:induction false} CoveredBySome(s: seq<Range>, b: nat) returns (k: nat)
    requires Cover(s, b) > 0
    ensures k < |s| && Contains(s[k], b)
  {
    if Contains(s[0], b) { k := 0; } else { k := CoveredBySome(s[1..], b); k := k + 1; }
  }

  lemma {:induction false} CoveredAtLeast(s: seq<Range>, y: Range, b: nat)
    requires y in s && Contains(y, b)
    ensures Cover(s, b) >= 1
  {
    if s[0] != y { CoveredAtLeast(s[1..], y, b); }
  }

  lemma CoveredTwice(s: seq<Range>, k: nat, b: nat)
    requires 0 < k < |s| && Contains(s[0], b) && Contains(s[k], b)
    ensures Cover(s, b) >= 2
  {
    assert s[k] == s[1..][k - 1];
    CoveredAtLeast(s[1..], s[k], b);
  }

  lemma {:induction false} TilesContiguous(s: seq<Range>, from: nat, dataBytes: nat)
    requires Sorted(s) && Bounded(s, dataBytes) && from <= dataBytes && TilesFrom(s, from, dataBytes)
    ensures Contiguous(s, from, dataBytes)
  {
    if s == [] {
      assert from < dataBytes ==> Cover(s, from) == 1;
    } else {
      var x, rest := s[0], s[1..];
      assert s == [x] + rest;
      assert x.start == from by {
        if from < dataBytes {
          var k := CoveredBySome(s, from);
          assert s[k] in s;
          if k > 0 { assert LexLeq(s[0], s[k]); }
        }
      }
      forall y | y in rest ensures x.end <= y.start {
        var k :| 0 <= k < |rest| && rest[k] == y;
        assert s[k + 1] == y && LexLeq(s[0], s[k + 1]);
        if y.start < x.end && y.start < y.end { CoveredTwice(s, k + 1, y.start); }
      }
      forall b: nat | x.end <= b < dataBytes ensures Cover(rest, b) == 1 {
        assert Cover(s, b) == 1;
      }
      TilesContiguous(rest, x.end, dataBytes);
    }
  }

  /** The scan of the sorted ranges succeeds exactly when the ranges tile the data section. */
  lemma ScanDecidesTiling(ranges: seq<Range>, dataBytes: nat)
    requires Bounded(ranges, dataBytes)
    ensures Contiguous(Sort(ranges), 0, dataBytes) <==> Tiles(ranges, dataBytes)
  {
    SortSorts(ranges);
    if Contiguous(Sort(ranges), 0, dataBytes) { ContiguousTiles(Sort(ranges), 0, dataBytes); }
    if Tiles(ranges, dataBytes) { TilesContiguous(Sort(ranges), 0, dataBytes); }
  }

  function TotalSize(ranges: seq<Range>): int {
    if ranges == [] then 0 else ranges[0].end - ranges[0].start + TotalSize(ranges[1..])
  }

  lemma {:induction false} ContiguousSizes(s: seq<Range>, from: nat, dataBytes: nat)
    requires Contiguous(s, from, dataBytes)
    ensures TotalSize(s) == dataBytes - from
  {
    if s != [] { ContiguousSizes(s[1..], s[0].end, dataBytes); }
  }

  lemma {:induction false} InsertSizes(x: Range, s: seq<Range>)
    ensures TotalSize(Insert(x, s)) == x.end - x.start + TotalSize(s)
    ensures |Insert(x, s)| == |s| + 1
  {
    if s != [] && !LexLeq(x, s[0]) {
      InsertSizes(x, s[1..]);
      assert ([s[0]] + Insert(x, s[1..]))[1..] == Insert(x, s[1..]);
    } else {
      assert ([x] + s)[1..] == s;
    }
  }

  lemma {:induction false} SortSizes(s: seq<Range>)
    ensures TotalSize(Sort(s)) == TotalSize(s) && |Sort(s)| == |s|
  {
    if s != [] {
      SortSizes(s[1..]);
      InsertSizes(s[0], Sort(s[1..]));
    }
  }

  /** In an accepted layout the tensor sizes add up to the data section. */
  lemma TiledSizes(ranges: seq<Range>, dataBytes: nat)
    requires Bounded(ranges, dataBytes) && Tiles(ranges, dataBytes)
    ensures TotalSize(ranges) == dataBytes
  {
    ScanDecidesTiling(ranges, dataBytes);
    ContiguousSizes(Sort(ranges), 0, dataBytes);
    SortSizes(ranges);
  }

  lemma {:induction false} RangesBounded(entries: seq<(string, Json)>, dataBytes: nat)
    ensures Bounded(Ranges(entries, dataBytes), dataBytes)
  {
    if entries != [] { RangesBounded(entries[..|entries| - 1], dataBytes); }
  }

  // ---------------------------------------------------------------- the validator

  /** The checks on one tensor record, in order; the range of a tensor that passes. */
  method InspectTensor(record: Json, dataBytes: nat) returns (r: Result<Range, Fault>)
    ensures r.Ok? <==> TensorOk(record, dataBytes)
    ensures r.Ok? ==> r.value == RangeOf(record, dataBytes)
  {
    if !WellTyped(record, dataBytes) { return Err(INVALID_TENSOR); }
    var width := DtypeBytes(Get(record.fields, "dtype").value.s);
    if width.None? { return Err(UNSUPPORTED_DTYPE); }
    var shape := Dimensions(Get(record.fields, "shape").value.items);
    var count := CountElements(shape, width.value, dataBytes);
    if count.None? { return Err(SHAPE_EXCEEDS_DATA); }
    var range := RangeOf(record, dataBytes);
    if range.end - range.start != count.value * width.value { return Err(RANGE_INCONSISTENT); }
    return Ok(range);
  }

  /** The final loop over the sorted ranges. */
  method ScanRanges(ranges: seq<Range>, dataBytes: nat) returns (fault: Option<Fault>)
    ensures fault.None? <==> Contiguous(Sort(ranges), 0, dataBytes)
  {
    var ordered := Sort(ranges);
    var expectedStart: nat := 0;
    for i := 0 to |ordered|
      invariant Contiguous(ordered, 0, dataBytes) <==> Contiguous(ordered[i..], expectedStart, dataBytes)
    {
      assert ordered[i..][1..] == ordered[i + 1..];
      if ordered[i].start != expectedStart { return Some(NOT_CONTIGUOUS); }
      expectedStart := ordered[i].end;
    }
    if expectedStart != dataBytes { return Some(UNREFERENCED_BYTES); }
    return None;
  }

  /** The data section that the prefix and the header length leave, when they are in order. */
  predicate Framed(fileSize: nat, headerLength: nat) {
    && 8 <= fileSize && 1 <= headerLength <= MAX_SAFETENSORS_HEADER_BYTES && headerLength % 8 == 0
    && 8 + headerLength <= fileSize
  }

  /**
   * inspect_safetensors, from the decoded header on (None: not JSON, or a duplicate key): it
   * accepts exactly the acceptable layouts, and returns how many tensors they hold.
   */
  method InspectSafetensors(fileSize: nat, headerLength: nat, decoded: Option<Json>) returns (r: Result<nat, Fault>)
    ensures r.Ok? <==> (&& Framed(fileSize, headerLength) && decoded.Some? && decoded.value.Obj?
                        && Acceptable(decoded.value.fields, fileSize - 8 - headerLength))
    ensures r.Ok? ==> r.value == |Ranges(decoded.value.fields, fileSize - 8 - headerLength)|
    ensures r.Ok? ==>
              TotalSize(Ranges(decoded.value.fields, fileSize - 8 - headerLength)) == fileSize - 8 - headerLength
  {
    if !Framed(fileSize, headerLength) || decoded.None? { return Err(INVALID_FILE); }
    if !decoded.value.Obj? { return Err(INVALID_HEADER); }
    var entries := decoded.value.fields;
    var dataBytes := fileSize - 8 - headerLength;
    var tensorCount := 0;
    var byteRanges: seq<Range> := [];
    for i := 0 to |entries|
      invariant EntriesOk(entries[..i], dataBytes)
      invariant byteRanges == Ranges(entries[..i], dataBytes) && tensorCount == |byteRanges|
    {
      assert entries[..i + 1] == entries[..i] + [entries[i]];
      assert entries[..i + 1][..i] == entries[..i];
      assert entries[i] in entries;
      if IsMetadata(entries[i]) {
        if !entries[i].1.Obj? { return Err(INVALID_METADATA); }
        continue;
      }
      if entries[i].0 == "" { return Err(INVALID_TENSOR); }
      var range := InspectTensor(entries[i].1, dataBytes);
      if range.Err? { return Err(range.error); }
      byteRanges := byteRanges + [range.value];
      tensorCount := tensorCount + 1;
    }
    assert entries[..|entries|] == entries;
    if tensorCount == 0 { return Err(NO_TENSORS); }
    RangesBounded(entries, dataBytes);
    ScanDecidesTiling(byteRanges, dataBytes);
    var fault := ScanRanges(byteRanges, dataBytes);
    if fault.Some? { return Err(fault.value); }
    TiledSizes(byteRanges, dataBytes);
    return Ok(tensorCount);
  }

  // ---------------------------------------------------------------- order of the header

  lemma {:induction false} RangesConcat(a: seq<(string, Json)>, b: seq<(string, Json)>, dataBytes: nat)
    ensures Ranges(a + b, dataBytes) == Ranges(a, dataBytes) + Ranges(b, dataBytes)
  {
    if b == [] {
      assert a + b == a;
    } else {
      var n := |b| - 1;
      assert (a + b)[..|a + b| - 1] == a + b[..n];
      RangesConcat(a, b[..n], dataBytes);
    }
  }

  lemma {:induction false} CoverConcat(a: seq<Range>, b: seq<Range>, p: nat)
    ensures Cover(a + b, p) == Cover(a, p) + Cover(b, p)
  {
    if a == [] {
      assert a + b == b;
    } else {
      assert (a + b)[1..] == a[1..] + b;
      CoverConcat(a[1..], b, p);
    }
  }

  /** Two lists of ranges with the same count, the same members and the same cover of every byte. */
  ghost predicate Alike(x: seq<Range>, y: seq<Range>) {
    && |x| == |y|
    && (forall r :: r in x <==> r in y)
    && (forall p: nat :: Cover(x, p) == Cover(y, p))
  }

  lemma AlikeBehind(head: seq<Range>, x: seq<Range>, y: seq<Range>)
    requires Alike(x, y)
    ensures Alike(head + x, head + y)
  {
    forall p: nat ensures Cover(head + x, p) == Cover(head + y, p) {
      CoverConcat(head, x, p);
      CoverConcat(head, y, p);
    }
  }

  lemma AlikeMoved(a: seq<Range>, e: seq<Range>, b: seq<Range>)
    ensures Alike(e + (a + b), a + (e + b))
  {
    forall p: nat ensures Cover(e + (a + b), p) == Cover(a + (e + b), p) {
      CoverConcat(e, a + b, p);
      CoverConcat(a, b, p);
      CoverConcat(a, e + b, p);
      CoverConcat(e, b, p);
    }
  }

  /** Moving an entry to the front leaves the ranges alike. */
  lemma MovedEntry(a: seq<(string, Json)>, e: seq<(string, Json)>, b: seq<(string, Json)>, dataBytes: nat)
    ensures Alike(Ranges(e + (a + b), dataBytes), Ranges(a + (e + b), dataBytes))
  {
    RangesConcat(e, a + b, dataBytes);
    RangesConcat(a, b, dataBytes);
    RangesConcat(a, e + b, dataBytes);
    RangesConcat(e, b, dataBytes);
    AlikeMoved(Ranges(a, dataBytes), Ranges(e, dataBytes), Ranges(b, dataBytes));
  }

  lemma SameFirstEntry(e: seq<(string, Json)>, g: seq<(string, Json)>, h: seq<(string, Json)>, dataBytes: nat)
    requires Alike(Ranges(g, dataBytes), Ranges(h, dataBytes))
    ensures Alike(Ranges(e + g, dataBytes), Ranges(e + h, dataBytes))
  {
    RangesConcat(e, g, dataBytes);
    RangesConcat(e, h, dataBytes);
    AlikeBehind(Ranges(e, dataBytes), Ranges(g, dataBytes), Ranges(h, dataBytes));
  }

  lemma AlikeChains(x: seq<Range>, y: seq<Range>, z: seq<Range>)
    requires Alike(x, y) && Alike(y, z)
    ensures Alike(x, z)
  {
    forall p: nat ensures Cover(x, p) == Cover(z, p) { assert Cover(x, p) == Cover(y, p); }
  }

  lemma Cancel<T>(m: multiset<T>, x: multiset<T>, y: multiset<T>)
    requires m + x == m + y
    ensures x == y
  {
    assert x == (m + x) - m && y == (m + y) - m;
  }

  lemma MovedElement<T>(a: seq<T>, e: seq<T>, b: seq<T>)
    ensures multiset(a + (e + b)) == multiset(e) + multiset(a + b)
  {
  }

  lemma Position<T>(g: seq<T>, h: seq<T>) returns (k: nat)
    requires g != [] && multiset(g) == multiset(h)
    ensures k < |h| && h[k] == g[0]
  {
    assert g[0] in multiset(h);
    k :| 0 <= k < |h| && h[k] == g[0];
  }

  /** What is left of a permutation without one entry is a permutation. */
  lemma WithoutOne<T>(g: seq<T>, h: seq<T>) returns (a: seq<T>, b: seq<T>)
    requires g != [] && multiset(g) == multiset(h)
    ensures h == a + ([g[0]] + b) && multiset(g[1..]) == multiset(a + b)
  {
    var k := Position(g, h);
    a, b := h[..k], h[k + 1..];
    assert h == a + ([g[0]] + b);
    MovedElement(a, [g[0]], b);
    assert g == [g[0]] + g[1..];
    Cancel(multiset([g[0]]), multiset(g[1..]), multiset(a + b));
  }

  /** Permuting the entries leaves the ranges alike. */
  lemma {:induction false} PermutedRanges(g: seq<(string, Json)>, h: seq<(string, Json)>, dataBytes: nat)
    requires multiset(g) == multiset(h)
    ensures Alike(Ranges(g, dataBytes), Ranges(h, dataBytes))
    decreases |g|
  {
    if g == [] {
      assert |multiset(h)| == |h|;
    } else {
      var a, b := WithoutOne(g, h);
      var e := [g[0]];
      PermutedRanges(g[1..], a + b, dataBytes);
      SameFirstEntry(e, g[1..], a + b, dataBytes);
      MovedEntry(a, e, b, dataBytes);
      assert g == e + g[1..];
      AlikeChains(Ranges(g, dataBytes), Ranges(e + (a + b), dataBytes), Ranges(h, dataBytes));
    }
  }

  /** Acceptance and the count do not depend on the order of the header's entries. */
  lemma HeaderOrderIsIrrelevant(g: seq<(string, Json)>, h: seq<(string, Json)>, dataBytes: nat)
    requires multiset(g) == multiset(h)
    ensures Acceptable(g, dataBytes) <==> Acceptable(h, dataBytes)
    ensures |Ranges(g, dataBytes)| == |Ranges(h, dataBytes)|
  {
    PermutedRanges(g, h, dataBytes);
    assert forall e :: e in g <==> e in multiset(g);
    assert forall e :: e in h <==> e in multiset(h);
  }

  // ---------------------------------------------------------------- one tensor, in plain arithmetic

  /** The header of a file with one tensor of two dimensions. */
  function OneTensor(name: string, dtype: string, a: nat, b: nat, n: nat): seq<(string, Json)> {
    [(name, Obj([("dtype", Str(dtype)), ("shape", Arr([Int(a), Int(b)])), ("data_offsets", Arr([Int(0), Int(n)]))]))]
  }

  lemma GetThree(k: string, l: string, m: string, u: Json, v: Json, w: Json)
    requires k != l && k != m && l != m
    ensures var f := [(k, u), (l, v), (m, w)]; Get(f, k) == Some(u) && Get(f, l) == Some(v) && Get(f, m) == Some(w)
  {
    var f := [(k, u), (l, v), (m, w)];
    assert f[1..] == [(l, v), (m, w)] && f[1..][1..] == [(m, w)];
    assert Get(f[1..][1..], m) == Some(w);
  }

  lemma OneRecord(dtype: string, a: nat, b: nat, n: nat)
    ensures var record := OneTensor("w", dtype, a, b, n)[0].1;
      && WellTyped(record, n) && RangeOf(record, n) == Range(0, n)
      && Get(record.fields, "dtype") == Some(Str(dtype))
      && Dimensions(Get(record.fields, "shape").value.items) == [a, b]
  {
    assert "dtype"[0] == 'd' && "shape"[0] == 's' && |"data_offsets"| == 12 && |"dtype"| == 5 && |"shape"| == 5;
    GetThree("dtype", "shape", "data_offsets", Str(dtype), Arr([Int(a), Int(b)]), Arr([Int(0), Int(n)]));
  }

  /** The number of bytes of one element, for every type name there is. */
  lemma DtypeWidths(dtype: string)
    ensures DtypeBytes(dtype) == Some(1) <==> dtype in {"BOOL", "F8_E4M3", "F8_E5M2", "I8", "U8"}
    ensures DtypeBytes(dtype) == Some(2) <==> dtype in {"BF16", "F16", "I16", "U16"}
    ensures DtypeBytes(dtype) == Some(4) <==> dtype in {"F32", "I32", "U32"}
    ensures DtypeBytes(dtype) == Some(8) <==> dtype in {"F64", "I64", "U64"}
  {
  }

  lemma OneRangeTiles(n: nat)
    ensures Tiles([Range(0, n)], n)
  {
    var ranges := [Range(0, n)];
    assert ranges[1..] == [];
    forall p: nat | p < n ensures Cover(ranges, p) == 1 { assert Cover(ranges[1..], p) == 0; }
  }

  lemma TwoDimensions(width: nat, a: nat, b: nat, n: nat)
    requires a > 0 && b > 0
    ensures ShapeFits([a, b], width, n) && n == Product([a, b]) * width <==> n == width * a * b
  {
    ProductsMultiply([a], [], b);
    ProductsMultiply([], [], a);
    assert [a] + [b] == [a, b] && Product([a, b]) == a * b;
    assert a * b * width == width * a * b;
    ShapeLoopExact([a, b], width, n);
  }

  lemma OneEntry(e: (string, Json), dataBytes: nat)
    requires WellTyped(e.1, dataBytes) && !IsMetadata(e) && e.0 != "" && RangeOf(e.1, dataBytes) == Range(0, dataBytes)
    ensures Acceptable([e], dataBytes) <==> TensorOk(e.1, dataBytes)
    ensures |Ranges([e], dataBytes)| == 1
  {
    assert [e][..0] == [] && Ranges([e], dataBytes) == [Range(0, dataBytes)];
    OneRangeTiles(dataBytes);
    assert e in [e];
    if TensorOk(e.1, dataBytes) { assert EntriesOk([e], dataBytes) by { assert EntryOk(e, dataBytes); } }
    if EntriesOk([e], dataBytes) { assert EntryOk(e, dataBytes); }
  }

  /** A file with one tensor is acceptable exactly when its data are the elements' bytes, no more and no fewer. */
  lemma OneTensorExactly(dtype: string, width: nat, a: nat, b: nat, n: nat)
    requires DtypeBytes(dtype) == Some(width) && a > 0 && b > 0
    ensures Acceptable(OneTensor("w", dtype, a, b, n), n) <==> n == width * a * b
    ensures |Ranges(OneTensor("w", dtype, a, b, n), n)| == 1
  {
    OneRecord(dtype, a, b, n);
    assert |"w"| == 1;
    OneEntry(OneTensor("w", dtype, a, b, n)[0], n);
    TwoDimensions(width, a, b, n);
  }

  /** One type name of each width. */
  lemma FourWidths(a: nat, b: nat, n: nat)
    requires a > 0 && b > 0
    ensures Acceptable(OneTensor("w", "U8", a, b, n), n) <==> n == a * b
    ensures Acceptable(OneTensor("w", "F16", a, b, n), n) <==> n == 2 * a * b
    ensures Acceptable(OneTensor("w", "F32", a, b, n), n) <==> n == 4 * a * b
    ensures Acceptable(OneTensor("w", "F64", a, b, n), n) <==> n == 8 * a * b
  {
    DtypeWidths("U8");
    DtypeWidths("F16");
    DtypeWidths("F32");
    DtypeWidths("F64");
    OneTensorExactly("U8", 1, a, b, n);
    OneTensorExactly("F16", 2, a, b, n);
    OneTensorExactly("F32", 4, a, b, n);
    OneTensorExactly("F64", 8, a, b, n);
  }

  /** inspect_safetensors on a file with one float tensor: one tensor, exactly when it fills the data section. */
  method InspectOneFloatTensor(headerLength: nat, a: nat, b: nat, n: nat) returns (r: Result<nat, Fault>)
    requires a > 0 && b > 0
    ensures r == Ok(1) <==>
              1 <= headerLength <= 16 * 1024 * 1024 && headerLength % 8 == 0 && n == 4 * a * b
    ensures r.Ok? ==> r.value == 1
  {
    OneTensorExactly("F32", 4, a, b, n);
    r := InspectSafetensors(8 + headerLength + n, headerLength, Some(Obj(OneTensor("w", "F32", a, b, n))));
  }

  /** A metadata entry must be an object, and otherwise changes neither acceptance nor count. */
  lemma MetadataIsIgnored(g: seq<(string, Json)>, metadata: Json, dataBytes: nat)
    ensures Acceptable([("__metadata__", metadata)] + g, dataBytes) <==> metadata.Obj? && Acceptable(g, dataBytes)
    ensures Ranges([("__metadata__", metadata)] + g, dataBytes) == Ranges(g, dataBytes)
  {
    var e := ("__metadata__", metadata);
    assert [e][..0] == [] && Ranges([e], dataBytes) == [];
    RangesConcat([e], g, dataBytes);
    var all := [e] + g;
    assert Ranges(all, dataBytes) == [] + Ranges(g, dataBytes) == Ranges(g, dataBytes);
    assert e in all && forall x :: x in all <==> x == e || x in g;
    assert EntryOk(e, dataBytes) <==> metadata.Obj?;
    if EntriesOk(all, dataBytes) {
      forall x | x in g ensures EntryOk(x, dataBytes) { assert x in all; }
    }
    if metadata.Obj? && EntriesOk(g, dataBytes) {
      forall x | x in all ensures EntryOk(x, dataBytes) {}
    }
    assert EntriesOk(all, dataBytes) <==> metadata.Obj? && EntriesOk(g, dataBytes);
  }
}
