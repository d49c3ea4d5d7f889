/** Verifying and slicing Molecule strings in place: `molecule_reader.h` and the verifiers of `protocol.h`. */
module MoleculeReader {
  import opened Numbers
  import opened ByteOrder
  import opened MoleculeLayout

  /** What the pointers point into; a read past a segment finds whatever bytes are there. */
  type Memory = seq<byte>

  function At(mem: Memory, p: nat): byte {
    if p < |mem| then mem[p] else 0
  }

  datatype Seg = Seg(ptr: nat, size: U32)

  datatype SegRes = SegOk(seg: Seg) | SegErr(errno: int)

  const MOL_OK: int := 0x00
  const MOL_ERR_TOTAL_SIZE: int := 0x01
  const MOL_ERR_HEADER: int := 0x02
  const MOL_ERR_OFFSET: int := 0x03
  const MOL_ERR_INDEX_OUT_OF_BOUNDS: int := 0x05
  const MOL_ERR_FIELD_COUNT: int := 0x06
  const MOL_ERR_DATA: int := 0x07

  /** The segment lies in memory. */
  predicate In(mem: Memory, s: Seg) {
    s.ptr + s.size <= |mem|
  }

  /** The bytes of a segment. */
  function View(mem: Memory, s: Seg): (v: seq<byte>)
    requires In(mem, s)
    ensures |v| == s.size
  {
    mem[s.ptr..s.ptr + s.size]
  }

  function UnpackNumber(mem: Memory, p: nat): U32 {
    At(mem, p) as int + 0x100 * (At(mem, p + 1) as int + 0x100 * (At(mem, p + 2) as int + 0x100 * (At(mem, p + 3) as int)))
  }

  lemma ReadInside(mem: Memory, s: Seg, i: nat)
    requires In(mem, s)
    requires i + MOL_NUM_T_SIZE <= s.size
    ensures UnpackNumber(mem, s.ptr + i) == Unpack(View(mem, s), i)
  {
    var f, p := View(mem, s)[i..i + MOL_NUM_T_SIZE], s.ptr + i;
    ViewAt(mem, s, i);
    ViewAt(mem, s, i + 1);
    ViewAt(mem, s, i + 2);
    ViewAt(mem, s, i + 3);
    assert f[0] == At(mem, p) && f[1] == At(mem, p + 1) && f[2] == At(mem, p + 2) && f[3] == At(mem, p + 3);
    LeFour(f);
  }

  lemma ViewAt(mem: Memory, s: Seg, i: nat)
    requires In(mem, s) && i < s.size
    ensures View(mem, s)[i] == At(mem, s.ptr + i)
  {
  }

  lemma LeFour(f: seq<byte>)
    requires |f| == 4
    ensures LeVal(f) == f[0] as int + 0x100 * (f[1] as int + 0x100 * (f[2] as int + 0x100 * (f[3] as int)))
  {
    assert f[0..] == f;
    LeFrom(f, 0);
    LeFrom(f, 1);
    LeFrom(f, 2);
    LeFrom(f, 3);
  }

  /** `mol_num_t` arithmetic wraps at 32 bits. */
  function Wrap32(x: int): U32 {
    x % BASE
  }

  lemma Wrap32Id(x: int)
    requires 0 <= x < BASE
    ensures Wrap32(x) == x
  {
  }

  lemma SliceOfSlice(mem: Memory, a: nat, b: nat, i: nat, j: nat, ai: nat, aj: nat)
    requires a <= b <= |mem| && i <= j <= b - a && ai == a + i && aj == a + j
    ensures mem[a..b][i..j] == mem[ai..aj]
  {
    var whole := mem[a..b];
    forall k | 0 <= k < j - i ensures whole[i..j][k] == mem[ai..aj][k] {
      assert whole[i + k] == mem[a + (i + k)];
    }
  }

  lemma ViewInside(mem: Memory, s: Seg, i: nat, size: U32)
    requires In(mem, s)
    requires i + size <= s.size
    ensures In(mem, Seg(s.ptr + i, size)) && View(mem, Seg(s.ptr + i, size)) == View(mem, s)[i..i + size]
  {
    SliceOfSlice(mem, s.ptr, s.ptr + s.size, i, i + size, s.ptr + i, s.ptr + i + size);
  }

  function FixvecVerify(mem: Memory, input: Seg, itemSize: U32): int {
    if input.size < MOL_NUM_T_SIZE then MOL_ERR_HEADER
    else
      var itemCount := UnpackNumber(mem, input.ptr);
      if itemCount == 0 then (if input.size == MOL_NUM_T_SIZE then MOL_OK else MOL_ERR_TOTAL_SIZE)
      else
        var totalSize := Wrap32(MOL_NUM_T_SIZE + itemSize * itemCount);
        if input.size == totalSize then MOL_OK else MOL_ERR_TOTAL_SIZE
  }

  function BytesVerify(mem: Memory, input: Seg): int {
    FixvecVerify(mem, input, 1)
  }

  /** The 32-bit size computation cannot be fooled by wrap-around. */
  lemma BytesVerifyExact(mem: Memory, input: Seg)
    requires In(mem, input)
    ensures BytesVerify(mem, input) == MOL_OK <==> IsBytes(View(mem, input))
  {
    if input.size >= MOL_NUM_T_SIZE {
      ReadInside(mem, input, 0);
    }
  }

  function ItemCount(mem: Memory, input: Seg): U32 {
    Wrap32(UnpackNumber(mem, input.ptr + MOL_NUM_T_SIZE) / 4 - 1)
  }

  /** Offset `k` as it stands in the header. */
  function HeaderOffset(mem: Memory, input: Seg, k: nat): U32 {
    UnpackNumber(mem, input.ptr + Wrap32(MOL_NUM_T_SIZE * (k + 1)))
  }

  function DynvecSliceByIndex(mem: Memory, input: Seg, itemIndex: U32): SegRes {
    var totalSize := UnpackNumber(mem, input.ptr);
    if totalSize == MOL_NUM_T_SIZE then SegErr(MOL_ERR_INDEX_OUT_OF_BOUNDS)
    else
      var itemCount := ItemCount(mem, input);
      if itemIndex >= itemCount then SegErr(MOL_ERR_INDEX_OUT_OF_BOUNDS)
      else
        var itemStart := HeaderOffset(mem, input, itemIndex);
        if itemIndex + 1 == itemCount then SegOk(Seg(input.ptr + itemStart, Wrap32(totalSize - itemStart)))
        else
          var itemEnd := HeaderOffset(mem, input, itemIndex + 1);
          SegOk(Seg(input.ptr + itemStart, Wrap32(itemEnd - itemStart)))
  }

  function FixvecSliceRawBytes(mem: Memory, input: Seg): Seg {
    Seg(input.ptr + MOL_NUM_T_SIZE, UnpackNumber(mem, input.ptr))
  }

  /** On a well-formed dynvec or table, slice `k` is exactly item `k`; past the end there is none. */
  lemma SliceIsItem(mem: Memory, input: Seg, n: nat, k: U32)
    requires In(mem, input)
    requires IsHeader(View(mem, input), n)
    ensures k < n ==> DynvecSliceByIndex(mem, input, k).SegOk?
                      && In(mem, DynvecSliceByIndex(mem, input, k).seg)
                      && View(mem, DynvecSliceByIndex(mem, input, k).seg) == Slice(View(mem, input), n, k)
    ensures k >= n ==> DynvecSliceByIndex(mem, input, k) == SegErr(MOL_ERR_INDEX_OUT_OF_BOUNDS)
  {
    ReadCount(mem, input, n);
    if k < n {
      OffsetsOrdered(View(mem, input), n, k, k + 1);
      var start, end := OffsetOf(View(mem, input), n, k), OffsetOf(View(mem, input), n, k + 1);
      SliceBounds(mem, input, n, k, start, end);
      ViewInside(mem, input, start, end - start);
    }
  }

  lemma ReadCount(mem: Memory, input: Seg, n: nat)
    requires In(mem, input)
    requires IsHeader(View(mem, input), n)
    ensures UnpackNumber(mem, input.ptr) == input.size > MOL_NUM_T_SIZE
    ensures ItemCount(mem, input) == n
  {
    ReadInside(mem, input, 0);
    ReadInside(mem, input, MOL_NUM_T_SIZE);
    assert OffsetOf(View(mem, input), n, 0) == HeaderSize(n);
    Wrap32Id(n);
  }

  lemma ReadOffset(mem: Memory, input: Seg, n: nat, k: nat)
    requires In(mem, input)
    requires IsHeader(View(mem, input), n) && k < n
    ensures HeaderOffset(mem, input, k) == OffsetOf(View(mem, input), n, k)
  {
    Wrap32Id(MOL_NUM_T_SIZE * (k + 1));
    ReadInside(mem, input, MOL_NUM_T_SIZE * (k + 1));
  }

  lemma SliceBounds(mem: Memory, input: Seg, n: nat, k: U32, start: nat, end: nat)
    requires In(mem, input)
    requires IsHeader(View(mem, input), n) && k < n
    requires start == OffsetOf(View(mem, input), n, k) && end == OffsetOf(View(mem, input), n, k + 1)
    requires start <= end <= input.size
    ensures DynvecSliceByIndex(mem, input, k) == SegOk(Seg(input.ptr + start, end - start))
  {
    ReadCount(mem, input, n);
    ReadOffset(mem, input, n, k);
    Wrap32Id(end - start);
    if k + 1 < n {
      ReadOffset(mem, input, n, k + 1);
    }
  }

  /** The content of an accepted `Bytes` segment. */
  lemma RawBytesAreContent(mem: Memory, input: Seg)
    requires In(mem, input)
    requires IsBytes(View(mem, input))
    ensures In(mem, FixvecSliceRawBytes(mem, input))
    ensures View(mem, FixvecSliceRawBytes(mem, input)) == View(mem, input)[MOL_NUM_T_SIZE..]
  {
    ReadInside(mem, input, 0);
    ViewInside(mem, input, MOL_NUM_T_SIZE, input.size - MOL_NUM_T_SIZE);
  }

  // ----- `BytesVec`: a dynvec of `Bytes`

  predicate IsBytesVec(s: seq<byte>) {
    || s == EncodeDynVec([])
    || (|s| >= 2 * MOL_NUM_T_SIZE
        && CountOf(s) > 0 && IsHeader(s, CountOf(s))
        && forall k :: 0 <= k < CountOf(s) ==> IsBytes(Slice(s, CountOf(s), k)))
  }

  /** The strings a verifier accepts are exactly the encodings of lists of `Bytes`. */
  lemma BytesVecsAreEncodings(s: seq<byte>)
    requires |s| < BASE
    ensures IsBytesVec(s) <==>
            exists items: seq<seq<byte>> :: (forall k :: 0 <= k < |items| ==> IsBytes(items[k])) && s == EncodeDynVec(items)
  {
    if IsBytesVec(s) {
      var items := if s == EncodeDynVec([]) then [] else Slices(s, CountOf(s));
      if items != [] {
        HeaderIsEncoding(s, CountOf(s));
      }
      assert s == EncodeDynVec(items) && forall k :: 0 <= k < |items| ==> IsBytes(items[k]);
    }
    if items: seq<seq<byte>> :| (forall k :: 0 <= k < |items| ==> IsBytes(items[k])) && s == EncodeDynVec(items) {
      if items != [] {
        EncodingHasHeader(items);
        HeaderCount(s, |items|);
        SlicesOfEncoding(items);
        assert forall k :: 0 <= k < |items| ==> Slices(s, |items|)[k] == Slice(s, |items|, k);
      }
    }
  }

  lemma HeaderCount(s: seq<byte>, n: nat)
    requires IsHeader(s, n)
    ensures |s| >= 2 * MOL_NUM_T_SIZE && CountOf(s) == n
  {
    assert OffsetOf(s, n, 0) == HeaderSize(n);
  }

  /** Offset `k` as the loop reads it; after the last one comes the total size. */
  function RawOffset(mem: Memory, input: Seg, n: nat, k: nat): U32 {
    if k == n then input.size else UnpackNumber(mem, input.ptr + MOL_NUM_T_SIZE * (k + 1))
  }

  lemma RawOffsetIs(mem: Memory, input: Seg, n: nat, k: nat)
    requires In(mem, input)
    requires k <= n && input.size >= HeaderSize(n)
    ensures RawOffset(mem, input, n, k) == OffsetOf(View(mem, input), n, k)
  {
    if k < n {
      ReadInside(mem, input, MOL_NUM_T_SIZE * (k + 1));
    }
  }

  /** A span does not run backwards, and what it delimits verifies. */
  predicate SpanVerifies(mem: Memory, input: Seg, start: U32, end: U32) {
    start <= end && BytesVerify(mem, Seg(input.ptr + start, end - start)) == MOL_OK
  }

  predicate ItemVerifies(mem: Memory, input: Seg, n: nat, k: nat) {
    SpanVerifies(mem, input, RawOffset(mem, input, n, k), RawOffset(mem, input, n, k + 1))
  }

  /** The first `m` items verify. */
  predicate ItemsVerify(mem: Memory, input: Seg, n: nat, m: nat) {
    m == 0 || (ItemsVerify(mem, input, n, m - 1) && ItemVerifies(mem, input, n, m - 1))
  }

  lemma {:induction false} ItemsVerifyEach(mem: Memory, input: Seg, n: nat, m: nat)
    ensures ItemsVerify(mem, input, n, m) <==> forall k :: 0 <= k < m ==> ItemVerifies(mem, input, n, k)
  {
    if m > 0 {
      ItemsVerifyEach(mem, input, n, m - 1);
    }
  }

  lemma {:induction false} ItemsVerifyMono(mem: Memory, input: Seg, n: nat, i: nat, m: nat)
    requires i <= m
    ensures ItemsVerify(mem, input, n, m) ==> ItemsVerify(mem, input, n, i)
  {
    if i < m {
      ItemsVerifyMono(mem, input, n, i, m - 1);
    }
  }

  /** Inside a well-formed header, an item verifies exactly when its slice is a `Bytes`. */
  lemma ItemIsSlice(mem: Memory, input: Seg, n: nat, k: nat)
    requires In(mem, input)
    requires IsHeader(View(mem, input), n) && k < n
    ensures ItemVerifies(mem, input, n, k) <==> IsBytes(Slice(View(mem, input), n, k))
  {
    var s := View(mem, input);
    OffsetsOrdered(s, n, k, k + 1);
    RawOffsetIs(mem, input, n, k);
    RawOffsetIs(mem, input, n, k + 1);
    SpanIsBytes(mem, input, OffsetOf(s, n, k), OffsetOf(s, n, k + 1));
  }

  lemma SpanIsBytes(mem: Memory, input: Seg, start: U32, end: U32)
    requires In(mem, input) && start <= end <= input.size
    ensures SpanVerifies(mem, input, start, end) <==> IsBytes(View(mem, input)[start..end])
  {
    var inner := Seg(input.ptr + start, end - start);
    ViewInside(mem, input, start, end - start);
    BytesVerifyExact(mem, inner);
  }

  lemma ItemsOrdered(mem: Memory, input: Seg, n: nat)
    requires In(mem, input)
    requires n > 0 && input.size >= HeaderSize(n)
    requires Unpack(View(mem, input), 0) == input.size && OffsetOf(View(mem, input), n, 0) == HeaderSize(n)
    requires forall k :: 0 <= k < n ==> ItemVerifies(mem, input, n, k)
    ensures IsHeader(View(mem, input), n)
  {
    forall k | 0 <= k < n
      ensures OffsetOf(View(mem, input), n, k) <= OffsetOf(View(mem, input), n, k + 1)
    {
      assert ItemVerifies(mem, input, n, k);
      RawOffsetIs(mem, input, n, k);
      RawOffsetIs(mem, input, n, k + 1);
    }
  }

  lemma ItemsVerifyAll(mem: Memory, input: Seg, n: nat)
    requires In(mem, input)
    requires n > 0 && input.size >= HeaderSize(n)
    requires Unpack(View(mem, input), 0) == input.size && OffsetOf(View(mem, input), n, 0) == HeaderSize(n)
    ensures ItemsVerify(mem, input, n, n) <==> IsBytesVec(View(mem, input))
  {
    var s := View(mem, input);
    assert CountOf(s) == n;
    EmptyVec(mem, input);
    ItemsVerifyEach(mem, input, n, n);
    if ItemsVerify(mem, input, n, n) {
      ItemsOrdered(mem, input, n);
    }
    if IsHeader(s, n) {
      forall k | 0 <= k < n
        ensures ItemVerifies(mem, input, n, k) <==> IsBytes(Slice(s, n, k))
      {
        ItemIsSlice(mem, input, n, k);
      }
    }
  }

  /** What one more offset adds. */
  lemma ItemStep(mem: Memory, input: Seg, n: nat, i: nat, offset: U32, end: U32)
    requires 0 < i <= n && ItemsVerify(mem, input, n, i - 1)
    requires offset == RawOffset(mem, input, n, i - 1) && end == RawOffset(mem, input, n, i)
    ensures offset > end ==> !ItemsVerify(mem, input, n, n)
    ensures offset <= end && BytesVerify(mem, Seg(input.ptr + offset, end - offset)) != MOL_OK
            ==> !ItemsVerify(mem, input, n, n)
    ensures offset <= end && BytesVerify(mem, Seg(input.ptr + offset, end - offset)) == MOL_OK
            ==> ItemsVerify(mem, input, n, i)
  {
    ItemsVerifyMono(mem, input, n, i, n);
  }

  lemma ReadNext(mem: Memory, input: Seg, n: nat, i: nat, ptr: nat)
    requires i < n && ptr == input.ptr + MOL_NUM_T_SIZE * (i + 1)
    ensures UnpackNumber(mem, ptr) == RawOffset(mem, input, n, i)
  {
  }

  /** The loop over the items, `offset0` being the first offset and `ptr0` where it was read. */
  method VerifyItems(mem: Memory, input: Seg, itemCount: nat, offset0: U32, ptr0: nat) returns (errno: int)
    requires itemCount > 0
    requires offset0 == RawOffset(mem, input, itemCount, 0) && ptr0 == input.ptr + MOL_NUM_T_SIZE
    ensures errno == MOL_OK <==> ItemsVerify(mem, input, itemCount, itemCount)
  {
    var ptr, offset, i := ptr0, offset0, 1;
    while i < itemCount
      invariant 1 <= i <= itemCount && ptr == input.ptr + MOL_NUM_T_SIZE * i
      invariant offset == RawOffset(mem, input, itemCount, i - 1)
      invariant ItemsVerify(mem, input, itemCount, i - 1)
    {
      ptr := ptr + MOL_NUM_T_SIZE;
      ReadNext(mem, input, itemCount, i, ptr);
      var end := UnpackNumber(mem, ptr);
      ItemStep(mem, input, itemCount, i, offset, end);
      if offset > end {
        return MOL_ERR_OFFSET;
      }
      var inner := Seg(input.ptr + offset, end - offset);
      var err := BytesVerify(mem, inner);
      if err != MOL_OK {
        return MOL_ERR_DATA;
      }
      offset := end;
      i := i + 1;
    }
    ItemStep(mem, input, itemCount, itemCount, offset, input.size);
    if offset > input.size {
      return MOL_ERR_OFFSET;
    }
    var inner := Seg(input.ptr + offset, input.size - offset);
    errno := BytesVerify(mem, inner);
  }

  /** Accepts a segment exactly when it is a `BytesVec`, whatever lies beyond the segment. */
  method BytesVecVerify(mem: Memory, input: Seg) returns (errno: int)
    requires In(mem, input)
    ensures errno == MOL_OK <==> IsBytesVec(View(mem, input))
  {
    ghost var s := View(mem, input);
    EmptyVec(mem, input);
    if input.size < MOL_NUM_T_SIZE {
      return MOL_ERR_HEADER;
    }
    var ptr := input.ptr;
    var totalSize := UnpackNumber(mem, ptr);
    ReadInside(mem, input, 0);
    if input.size != totalSize {
      return MOL_ERR_TOTAL_SIZE;
    }
    if input.size == MOL_NUM_T_SIZE {
      return MOL_OK;
    }
    if input.size < MOL_NUM_T_SIZE * 2 {
      return MOL_ERR_HEADER;
    }
    ptr := ptr + MOL_NUM_T_SIZE;
    var offset := UnpackNumber(mem, ptr);
    ReadInside(mem, input, MOL_NUM_T_SIZE);
    if offset % 4 > 0 || offset < MOL_NUM_T_SIZE * 2 {
      return MOL_ERR_OFFSET;
    }
    var itemCount := offset / 4 - 1;
    if input.size < MOL_NUM_T_SIZE * (itemCount + 1) {
      return MOL_ERR_HEADER;
    }
    RawOffsetIs(mem, input, itemCount, 0);
    ItemsVerifyAll(mem, input, itemCount);
    errno := VerifyItems(mem, input, itemCount, offset, ptr);
  }

  lemma EmptyVec(mem: Memory, input: Seg)
    requires In(mem, input)
    ensures View(mem, input) == EncodeDynVec([])
       <==> input.size == MOL_NUM_T_SIZE && Unpack(View(mem, input), 0) == MOL_NUM_T_SIZE
  {
    assert EncodeDynVec([]) == Pack(MOL_NUM_T_SIZE);
    if input.size == MOL_NUM_T_SIZE {
      PackUnpack(View(mem, input), 0);
      assert View(mem, input)[0..MOL_NUM_T_SIZE] == View(mem, input);
      if View(mem, input) == Pack(MOL_NUM_T_SIZE) {
        UnpackPack(View(mem, input), 0, MOL_NUM_T_SIZE);
      }
    }
  }

  // ----- `Script`: a table of code hash, hash type and args

  const BYTE32_SIZE: nat := 32

  /** Three fields, and more only when the reader is told to tolerate them. */
  predicate IsScript(s: seq<byte>, compatible: bool) {
    && |s| >= 2 * MOL_NUM_T_SIZE
    && CountOf(s) >= 3 && (compatible || CountOf(s) == 3)
    && IsHeader(s, CountOf(s))
    && |Slice(s, CountOf(s), 0)| == BYTE32_SIZE
    && |Slice(s, CountOf(s), 1)| == 1
    && IsBytes(Slice(s, CountOf(s), 2))
  }

  /** The offsets read so far are those of the header and do not go back. */
  ghost predicate OffsetsRead(s: seq<byte>, n: nat, offsets: seq<U32>, m: nat)
    requires m <= n < |offsets| && |s| >= HeaderSize(n)
  {
    && (forall k :: 0 <= k < m ==> offsets[k] == OffsetOf(s, n, k))
    && (forall k :: 0 <= k < m - 1 ==> offsets[k] <= offsets[k + 1])
  }

  /** Reads the remaining offsets; stops at the first that goes back. */
  method ReadOffsets(mem: Memory, input: Seg, n: nat, offsets: array<U32>, ptr0: nat) returns (ok: bool)
    requires In(mem, input) && n > 0 && input.size >= HeaderSize(n) && offsets.Length == n + 1
    requires ptr0 == input.ptr + MOL_NUM_T_SIZE && offsets[0] == OffsetOf(View(mem, input), n, 0)
    requires Unpack(View(mem, input), 0) == input.size && offsets[0] == HeaderSize(n)
    modifies offsets
    ensures ok <==> IsHeader(View(mem, input), n)
    ensures ok ==> forall k :: 0 <= k <= n ==> offsets[k] == OffsetOf(View(mem, input), n, k)
  {
    ghost var s := View(mem, input);
    var ptr := ptr0;
    for i := 1 to n
      invariant ptr == input.ptr + MOL_NUM_T_SIZE * i
      invariant OffsetsRead(s, n, offsets[..], i)
    {
      ptr := ptr + MOL_NUM_T_SIZE;
      ReadInside(mem, input, MOL_NUM_T_SIZE * (i + 1));
      offsets[i] := UnpackNumber(mem, ptr);
      if offsets[i - 1] > offsets[i] {
        assert OffsetOf(s, n, i - 1) > OffsetOf(s, n, i - 1 + 1);
        return false;
      }
    }
    if offsets[n - 1] > input.size {
      assert OffsetOf(s, n, n - 1) > OffsetOf(s, n, n - 1 + 1);
      return false;
    }
    offsets[n] := input.size;
    HeaderFromOffsets(s, n, offsets[..]);
    return true;
  }

  lemma HeaderFromOffsets(s: seq<byte>, n: nat, offsets: seq<U32>)
    requires 0 < n < |offsets| && |s| >= HeaderSize(n)
    requires OffsetsRead(s, n, offsets, n) && offsets[n - 1] <= |s|
    requires Unpack(s, 0) == |s| && offsets[0] == HeaderSize(n)
    ensures IsHeader(s, n)
  {
    forall k | 0 <= k < n
      ensures OffsetOf(s, n, k) <= OffsetOf(s, n, k + 1)
    {
      assert offsets[k] == OffsetOf(s, n, k);
    }
  }

  /** Accepts a segment exactly when it is a `Script` table. */
  method ScriptVerify(mem: Memory, input: Seg, compatible: bool) returns (errno: int)
    requires In(mem, input)
    ensures errno == MOL_OK <==> IsScript(View(mem, input), compatible)
  {
    if input.size < MOL_NUM_T_SIZE {
      return MOL_ERR_HEADER;
    }
    var ptr := input.ptr;
    var totalSize := UnpackNumber(mem, ptr);
    ReadInside(mem, input, 0);
    if input.size != totalSize {
      return MOL_ERR_TOTAL_SIZE;
    }
    if input.size < MOL_NUM_T_SIZE * 2 {
      return MOL_ERR_HEADER;
    }
    ptr := ptr + MOL_NUM_T_SIZE;
    var offset := UnpackNumber(mem, ptr);
    ReadInside(mem, input, MOL_NUM_T_SIZE);
    if offset % 4 > 0 || offset < MOL_NUM_T_SIZE * 2 {
      return MOL_ERR_OFFSET;
    }
    var fieldCount := offset / 4 - 1;
    if fieldCount < 3 {
      return MOL_ERR_FIELD_COUNT;
    } else if !compatible && fieldCount > 3 {
      return MOL_ERR_FIELD_COUNT;
    }
    if input.size < MOL_NUM_T_SIZE * (fieldCount + 1) {
      return MOL_ERR_HEADER;
    }
    var offsets := new U32[fieldCount + 1];
    offsets[0] := offset;
    var ordered := ReadOffsets(mem, input, fieldCount, offsets, ptr);
    if !ordered {
      return MOL_ERR_OFFSET;
    }
    errno := FieldsVerify(mem, input, fieldCount, offsets);
  }

  method FieldsVerify(mem: Memory, input: Seg, n: nat, offsets: array<U32>) returns (errno: int)
    requires In(mem, input) && n >= 3 && IsHeader(View(mem, input), n) && offsets.Length == n + 1
    requires forall k :: 0 <= k <= n ==> offsets[k] == OffsetOf(View(mem, input), n, k)
    ensures errno == MOL_OK <==> |Slice(View(mem, input), n, 0)| == BYTE32_SIZE
                                 && |Slice(View(mem, input), n, 1)| == 1
                                 && IsBytes(Slice(View(mem, input), n, 2))
  {
    ghost var s := View(mem, input);
    OffsetsOrdered(s, n, 0, 1);
    OffsetsOrdered(s, n, 1, 2);
    OffsetsOrdered(s, n, 2, 3);
    if offsets[1] - offsets[0] != BYTE32_SIZE {
      return MOL_ERR_DATA;
    }
    if offsets[2] - offsets[1] != 1 {
      return MOL_ERR_DATA;
    }
    SpanIsBytes(mem, input, offsets[2], offsets[3]);
    var err := BytesVerify(mem, Seg(input.ptr + offsets[2], offsets[3] - offsets[2]));
    if err != MOL_OK {
      return MOL_ERR_DATA;
    }
    return MOL_OK;
  }
}
