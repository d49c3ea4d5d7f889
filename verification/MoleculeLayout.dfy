/** The Molecule layouts of Nervos RFC 0008 that the scripts read: `fixvec <byte>`, `dynvec` and `table`. */
module MoleculeLayout {
  import opened Numbers
  import opened ByteOrder

  const MOL_NUM_T_SIZE: nat := 4

  /** A 32-bit number in four little-endian bytes. */
  function Pack(x: nat): (s: seq<byte>)
    ensures |s| == MOL_NUM_T_SIZE
  {
    ToLe(x, MOL_NUM_T_SIZE)
  }

  /** The number stored at position `i`. */
  function Unpack(s: seq<byte>, i: nat): U32
    requires i + MOL_NUM_T_SIZE <= |s|
  {
    LeBound(s[i..i + MOL_NUM_T_SIZE]);
    AmountRange();
    LeVal(s[i..i + MOL_NUM_T_SIZE])
  }

  lemma UnpackPack(s: seq<byte>, i: nat, x: nat)
    requires i + MOL_NUM_T_SIZE <= |s| && x < BASE && s[i..i + MOL_NUM_T_SIZE] == Pack(x)
    ensures Unpack(s, i) == x
  {
    AmountRange();
    LeOfToLe(x, MOL_NUM_T_SIZE);
  }

  lemma PackUnpack(s: seq<byte>, i: nat)
    requires i + MOL_NUM_T_SIZE <= |s|
    ensures s[i..i + MOL_NUM_T_SIZE] == Pack(Unpack(s, i))
  {
    ToLeOfLe(s[i..i + MOL_NUM_T_SIZE]);
  }

  /** `Bytes`: a count followed by that many bytes. */
  function EncodeBytes(raw: seq<byte>): seq<byte> {
    Pack(|raw|) + raw
  }

  predicate IsBytes(s: seq<byte>) {
    |s| >= MOL_NUM_T_SIZE && Unpack(s, 0) == |s| - MOL_NUM_T_SIZE
  }

  /** The accepted strings are the encodings, and the content is recovered. */
  lemma BytesAreEncodings(s: seq<byte>)
    requires |s| < BASE
    ensures IsBytes(s) <==> |s| >= MOL_NUM_T_SIZE && s == EncodeBytes(s[MOL_NUM_T_SIZE..])
  {
    if |s| >= MOL_NUM_T_SIZE {
      PackUnpack(s, 0);
      assert s == s[0..MOL_NUM_T_SIZE] + s[MOL_NUM_T_SIZE..];
      if s == EncodeBytes(s[MOL_NUM_T_SIZE..]) {
        UnpackPack(s, 0, |s| - MOL_NUM_T_SIZE);
      }
    }
  }

  // ----- dynvec

  function Flatten(items: seq<seq<byte>>): seq<byte> {
    if items == [] then [] else items[0] + Flatten(items[1..])
  }

  /** The offset header for items laid out from `start` on. */
  function OffsetBytes(items: seq<seq<byte>>, start: nat): seq<byte> {
    if items == [] then [] else Pack(start) + OffsetBytes(items[1..], start + |items[0]|)
  }

  function HeaderSize(n: nat): nat {
    MOL_NUM_T_SIZE * (n + 1)
  }

  /** A dynvec: total size, one offset per item, then the items. */
  function EncodeDynVec(items: seq<seq<byte>>): seq<byte> {
    Pack(HeaderSize(|items|) + |Flatten(items)|) + OffsetBytes(items, HeaderSize(|items|)) + Flatten(items)
  }

  lemma {:induction false} OffsetBytesSize(items: seq<seq<byte>>, start: nat)
    ensures |OffsetBytes(items, start)| == MOL_NUM_T_SIZE * |items|
  {
    if items != [] {
      OffsetBytesSize(items[1..], start + |items[0]|);
    }
  }

  /** Where item `k` starts among the flattened items. */
  function SizeBefore(items: seq<seq<byte>>, k: nat): nat
    requires k <= |items|
  {
    if k == 0 then 0 else |items[0]| + SizeBefore(items[1..], k - 1)
  }

  lemma {:induction false} BeforeStep(items: seq<seq<byte>>, k: nat)
    requires k < |items|
    ensures SizeBefore(items, k + 1) == SizeBefore(items, k) + |items[k]|
  {
    if k > 0 {
      BeforeStep(items[1..], k - 1);
    }
  }

  lemma {:induction false} BeforeAll(items: seq<seq<byte>>)
    ensures SizeBefore(items, |items|) == |Flatten(items)|
  {
    if items != [] {
      BeforeAll(items[1..]);
    }
  }

  lemma {:induction false} BeforeMono(items: seq<seq<byte>>, j: nat, k: nat)
    requires j <= k <= |items|
    ensures SizeBefore(items, j) <= SizeBefore(items, k)
  {
    if j < k {
      BeforeMono(items, j, k - 1);
      BeforeStep(items, k - 1);
    }
  }

  lemma {:induction false} OffsetAt(items: seq<seq<byte>>, start: nat, k: nat)
    requires k < |items|
    ensures |OffsetBytes(items, start)| >= MOL_NUM_T_SIZE * (k + 1)
    ensures OffsetBytes(items, start)[MOL_NUM_T_SIZE * k..MOL_NUM_T_SIZE * (k + 1)] == Pack(start + SizeBefore(items, k))
  {
    OffsetBytesSize(items, start);
    var rest := OffsetBytes(items[1..], start + |items[0]|);
    OffsetBytesSize(items[1..], start + |items[0]|);
    if k > 0 {
      OffsetAt(items[1..], start + |items[0]|, k - 1);
      assert OffsetBytes(items, start)[MOL_NUM_T_SIZE * k..MOL_NUM_T_SIZE * (k + 1)]
          == rest[MOL_NUM_T_SIZE * (k - 1)..MOL_NUM_T_SIZE * k];
    }
  }

  lemma {:induction false} ItemAt(items: seq<seq<byte>>, k: nat)
    requires k < |items|
    ensures SizeBefore(items, k) + |items[k]| <= |Flatten(items)|
    ensures Flatten(items)[SizeBefore(items, k)..SizeBefore(items, k) + |items[k]|] == items[k]
  {
    if k > 0 {
      ItemAt(items[1..], k - 1);
      var b := SizeBefore(items[1..], k - 1);
      assert Flatten(items)[SizeBefore(items, k)..SizeBefore(items, k) + |items[k]|]
          == Flatten(items[1..])[b..b + |items[k]|];
    }
  }

  // ----- what a reader sees of a dynvec

  /** The number of items, from the first offset. */
  function CountOf(s: seq<byte>): int
    requires |s| >= 2 * MOL_NUM_T_SIZE
  {
    Unpack(s, MOL_NUM_T_SIZE) / 4 - 1
  }

  /** Offset `k`; the offset after the last item is the total size. */
  function OffsetOf(s: seq<byte>, n: nat, k: nat): nat
    requires k <= n && |s| >= HeaderSize(n)
  {
    if k == n then |s| else Unpack(s, MOL_NUM_T_SIZE * (k + 1))
  }

  /** A well-formed header for `n > 0` items: sizes agree, offsets start after the header and never go back. */
  predicate IsHeader(s: seq<byte>, n: nat) {
    && n > 0 && |s| >= HeaderSize(n)
    && Unpack(s, 0) == |s|
    && OffsetOf(s, n, 0) == HeaderSize(n)
    && forall k :: 0 <= k < n ==> OffsetOf(s, n, k) <= OffsetOf(s, n, k + 1)
  }

  lemma {:induction false} OffsetsOrdered(s: seq<byte>, n: nat, j: nat, k: nat)
    requires IsHeader(s, n) && j <= k <= n
    ensures HeaderSize(n) <= OffsetOf(s, n, j) <= OffsetOf(s, n, k) <= |s|
  {
    if j < k {
      OffsetsOrdered(s, n, j, k - 1);
      assert OffsetOf(s, n, k - 1) <= OffsetOf(s, n, k - 1 + 1);
    } else if k < n {
      OffsetsFrom(s, n, k);
      OffsetsUpTo(s, n, k);
    } else {
      OffsetsUpTo(s, n, k);
    }
    OffsetsFrom(s, n, k);
    OffsetsUpTo(s, n, j);
  }

  lemma {:induction false} OffsetsUpTo(s: seq<byte>, n: nat, k: nat)
    requires IsHeader(s, n) && k <= n
    ensures HeaderSize(n) <= OffsetOf(s, n, k)
  {
    if k > 0 {
      OffsetsUpTo(s, n, k - 1);
      assert OffsetOf(s, n, k - 1) <= OffsetOf(s, n, k - 1 + 1);
    }
  }

  lemma {:induction false} OffsetsFrom(s: seq<byte>, n: nat, k: nat)
    requires IsHeader(s, n) && k <= n
    ensures OffsetOf(s, n, k) <= |s|
    decreases n - k
  {
    if k < n {
      OffsetsFrom(s, n, k + 1);
    }
  }

  /** Item `k` as a reader slices it. */
  function Slice(s: seq<byte>, n: nat, k: nat): seq<byte>
    requires IsHeader(s, n) && k < n
  {
    OffsetsOrdered(s, n, k, k + 1);
    s[OffsetOf(s, n, k)..OffsetOf(s, n, k + 1)]
  }

  function Slices(s: seq<byte>, n: nat): (items: seq<seq<byte>>)
    requires IsHeader(s, n)
    ensures |items| == n
  {
    seq(n, k requires 0 <= k < n => Slice(s, n, k))
  }

  lemma {:induction false} SlicesFlatten(s: seq<byte>, n: nat, k: nat)
    requires IsHeader(s, n) && k <= n
    ensures OffsetOf(s, n, k) <= |s|
    ensures Flatten(Slices(s, n)[k..]) == s[OffsetOf(s, n, k)..]
    decreases n - k
  {
    OffsetsOrdered(s, n, k, k);
    if k < n {
      SlicesFlatten(s, n, k + 1);
      OffsetsOrdered(s, n, k, k + 1);
      assert Slices(s, n)[k..][1..] == Slices(s, n)[k + 1..];
      assert s[OffsetOf(s, n, k)..] == Slice(s, n, k) + s[OffsetOf(s, n, k + 1)..];
    }
  }

  lemma {:induction false} SlicesOffsets(s: seq<byte>, n: nat, k: nat)
    requires IsHeader(s, n) && k <= n
    ensures OffsetBytes(Slices(s, n)[k..], OffsetOf(s, n, k)) == s[MOL_NUM_T_SIZE * (k + 1)..HeaderSize(n)]
    decreases n - k
  {
    if k < n {
      SlicesOffsets(s, n, k + 1);
      OffsetsOrdered(s, n, k, k + 1);
      var items := Slices(s, n)[k..];
      assert items[1..] == Slices(s, n)[k + 1..] && items[0] == Slice(s, n, k);
      PackUnpack(s, MOL_NUM_T_SIZE * (k + 1));
      SplitHeader(s, MOL_NUM_T_SIZE * (k + 1), HeaderSize(n));
    }
  }

  lemma SplitHeader(s: seq<byte>, i: nat, j: nat)
    requires i + MOL_NUM_T_SIZE <= j <= |s|
    ensures s[i..j] == s[i..i + MOL_NUM_T_SIZE] + s[i + MOL_NUM_T_SIZE..j]
  {
  }

  /** A string with a well-formed header is the encoding of its slices. */
  lemma HeaderIsEncoding(s: seq<byte>, n: nat)
    requires IsHeader(s, n)
    ensures s == EncodeDynVec(Slices(s, n))
  {
    var items := Slices(s, n);
    SlicesFlatten(s, n, 0);
    SlicesOffsets(s, n, 0);
    assert items[0..] == items;
    PackUnpack(s, 0);
    assert s == s[0..MOL_NUM_T_SIZE] + s[MOL_NUM_T_SIZE..HeaderSize(n)] + s[HeaderSize(n)..];
    assert |Flatten(items)| == |s| - HeaderSize(n);
  }

  /** The encoding of a non-empty list has a well-formed header. */
  lemma EncodingHasHeader(items: seq<seq<byte>>)
    requires items != [] && |EncodeDynVec(items)| < BASE
    ensures IsHeader(EncodeDynVec(items), |items|)
  {
    var s, n := EncodeDynVec(items), |items|;
    EncodedSize(items);
    UnpackPack(s, 0, |s|);
    EncodedOffset(items, 0);
    forall k | 0 <= k < n
      ensures OffsetOf(s, n, k) <= OffsetOf(s, n, k + 1)
    {
      EncodedInOrder(items, k);
    }
  }

  lemma EncodedInOrder(items: seq<seq<byte>>, k: nat)
    requires k < |items| && |EncodeDynVec(items)| < BASE
    ensures |EncodeDynVec(items)| >= HeaderSize(|items|)
    ensures OffsetOf(EncodeDynVec(items), |items|, k) <= OffsetOf(EncodeDynVec(items), |items|, k + 1)
  {
    EncodedSize(items);
    EncodedOffset(items, k);
    EncodedOffset(items, k + 1);
    BeforeMono(items, k, k + 1);
  }

  /** Slicing an encoding gives the list back. */
  lemma SlicesOfEncoding(items: seq<seq<byte>>)
    requires items != [] && |EncodeDynVec(items)| < BASE && IsHeader(EncodeDynVec(items), |items|)
    ensures Slices(EncodeDynVec(items), |items|) == items
  {
    var s, n := EncodeDynVec(items), |items|;
    forall k | 0 <= k < n
      ensures Slices(s, n)[k] == items[k]
    {
      SliceOfEncoding(items, s, n, k);
    }
  }

  lemma SliceOfEncoding(items: seq<seq<byte>>, s: seq<byte>, n: nat, k: nat)
    requires s == EncodeDynVec(items) && n == |items| && |s| < BASE && IsHeader(s, n) && k < n
    ensures Slice(s, n, k) == items[k]
  {
    var start := HeaderSize(n) + SizeBefore(items, k);
    EncodedOffset(items, k);
    EncodedOffset(items, k + 1);
    BeforeStep(items, k);
    EncodedItem(items, k);
    SliceBetween(s, n, k, start, start + |items[k]|);
  }

  lemma SliceBetween(s: seq<byte>, n: nat, k: nat, start: nat, end: nat)
    requires IsHeader(s, n) && k < n
    requires OffsetOf(s, n, k) == start && OffsetOf(s, n, k + 1) == end
    ensures start <= end <= |s| && Slice(s, n, k) == s[start..end]
  {
    OffsetsOrdered(s, n, k, k + 1);
  }

  lemma EncodedSize(items: seq<seq<byte>>)
    ensures |EncodeDynVec(items)| == HeaderSize(|items|) + |Flatten(items)|
    ensures EncodeDynVec(items)[HeaderSize(|items|)..] == Flatten(items)
  {
    OffsetBytesSize(items, HeaderSize(|items|));
  }

  lemma EncodedItem(items: seq<seq<byte>>, k: nat)
    requires k < |items|
    ensures var b := HeaderSize(|items|) + SizeBefore(items, k);
            b + |items[k]| <= |EncodeDynVec(items)| && EncodeDynVec(items)[b..b + |items[k]|] == items[k]
  {
    EncodedSize(items);
    ItemAt(items, k);
    var b := SizeBefore(items, k);
    assert EncodeDynVec(items)[HeaderSize(|items|)..][b..b + |items[k]|] == items[k];
  }

  lemma EncodedOffset(items: seq<seq<byte>>, k: nat)
    requires items != [] && |EncodeDynVec(items)| < BASE && k <= |items|
    ensures |EncodeDynVec(items)| >= HeaderSize(|items|)
    ensures OffsetOf(EncodeDynVec(items), |items|, k) == HeaderSize(|items|) + SizeBefore(items, k)
  {
    EncodedSize(items);
    BeforeAll(items);
    if k < |items| {
      EncodedHeaderBytes(items, k);
      BeforeMono(items, k, |items|);
      OffsetRead(EncodeDynVec(items), |items|, k, HeaderSize(|items|) + SizeBefore(items, k));
    }
  }

  lemma OffsetRead(s: seq<byte>, n: nat, k: nat, x: nat)
    requires k < n && |s| >= HeaderSize(n) && x < BASE
    requires s[MOL_NUM_T_SIZE * (k + 1)..MOL_NUM_T_SIZE * (k + 1) + MOL_NUM_T_SIZE] == Pack(x)
    ensures OffsetOf(s, n, k) == x
  {
    UnpackPack(s, MOL_NUM_T_SIZE * (k + 1), x);
  }

  lemma EncodedHeaderBytes(items: seq<seq<byte>>, k: nat)
    requires k < |items|
    ensures |EncodeDynVec(items)| >= HeaderSize(|items|)
    ensures var i := MOL_NUM_T_SIZE * (k + 1);
            EncodeDynVec(items)[i..i + MOL_NUM_T_SIZE] == Pack(HeaderSize(|items|) + SizeBefore(items, k))
  {
    var head := OffsetBytes(items, HeaderSize(|items|));
    OffsetBytesSize(items, HeaderSize(|items|));
    OffsetAt(items, HeaderSize(|items|), k);
    assert EncodeDynVec(items)[MOL_NUM_T_SIZE..][..|head|] == head;
    assert EncodeDynVec(items)[MOL_NUM_T_SIZE * (k + 1)..MOL_NUM_T_SIZE * (k + 2)]
        == head[MOL_NUM_T_SIZE * k..MOL_NUM_T_SIZE * (k + 1)];
  }
}
