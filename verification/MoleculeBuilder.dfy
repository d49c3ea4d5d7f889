/** Building Molecule strings in growing buffers: `molecule_builder.h` and `MolBuilder_Script_build`. */
module MoleculeBuilder {
  import opened Numbers
  import opened ByteOrder
  import opened MoleculeLayout
  import opened MoleculeReader
  import opened ScriptLayout

  /** Past this many bytes a capacity that doubles in 32 bits wraps to zero. */
  const CAPACITY_MAX: nat := 0x8000_0000

  /** A capacity after `n` doublings of a 32-bit number. */
  function Doubled(cap: nat, n: nat): nat {
    if n == 0 then cap else Wrap32(2 * Doubled(cap, n - 1))
  }

  lemma {:induction false} DoubledIs(e: nat, n: nat)
    requires e <= 31
    ensures Pow2(e) < BASE
    ensures Doubled(Pow2(e), n) == if e + n <= 31 then Pow2(e + n) else 0
  {
    Pow2Word();
    Pow2Mono(e, 31);
    if n > 0 {
      DoubledIs(e, n - 1);
      if e + n <= 31 {
        Pow2Mono(e + n, 31);
      }
    }
  }

  lemma {:induction false} Pow2Mono(m: nat, n: nat)
    requires m <= n
    ensures Pow2(m) <= Pow2(n)
  {
    if m < n {
      Pow2Mono(m, n - 1);
    }
  }

  /** The growing loop stops exactly for needs of at most 2^31 bytes; beyond that it doubles zero forever. */
  lemma GrowthStops(e: nat, need: U32)
    requires e <= 31
    ensures Pow2(e) < BASE
    ensures (exists n: nat :: Doubled(Pow2(e), n) >= need) <==> need <= CAPACITY_MAX
  {
    DoubledIs(e, 31 - e);
    Pow2Word();
    if need <= CAPACITY_MAX {
      assert Doubled(Pow2(e), 31 - e) >= need;
    }
    forall n: nat
      ensures Doubled(Pow2(e), n) <= CAPACITY_MAX
    {
      DoubledIs(e, n);
      if e + n <= 31 {
        Pow2Mono(e + n, 31);
      }
    }
  }

  /** Copies `src` to `dst` at `at`. */
  method CopyInto(dst: array<byte>, at: nat, src: seq<byte>)
    requires at + |src| <= dst.Length
    modifies dst
    ensures dst[..] == old(dst[..at]) + src + old(dst[at + |src|..])
  {
    for i := 0 to |src|
      invariant dst[..at] == old(dst[..at]) && dst[at + |src|..] == old(dst[at + |src|..])
      invariant dst[at..at + i] == src[..i]
    {
      dst[at + i] := src[i];
      assert dst[at..at + i + 1] == dst[at..at + i] + [src[i]];
    }
    assert dst[..] == dst[..at] + dst[at..at + |src|] + dst[at + |src|..];
  }

  /** `realloc`: what fits is kept, and a new tail is `filler`. */
  method Realloc<T>(a: array<T>, size: nat, filler: T) returns (b: array<T>)
    ensures fresh(b) && b.Length == size
    ensures a.Length <= size ==> b[..a.Length] == a[..]
  {
    b := new T[size](i requires 0 <= i < size reads a => if i < a.Length then a[i] else filler);
  }

  /** The table's number buffer holds an offset and a length per field, within the content. */
  ghost predicate TableIn(content: seq<byte>, numbers: seq<U32>, n: nat) {
    && |numbers| == 2 * n
    && forall f {:trigger numbers[2 * f]} :: 0 <= f < n ==>
         numbers[2 * f] as int + numbers[2 * f + 1] as int <= |content|
  }

  ghost function FieldIn(content: seq<byte>, numbers: seq<U32>, f: nat): seq<byte>
    requires 2 * f + 1 < |numbers| && numbers[2 * f] as int + numbers[2 * f + 1] as int <= |content|
  {
    content[numbers[2 * f]..numbers[2 * f] as int + numbers[2 * f + 1] as int]
  }

  /** Pointing one field at freshly appended bytes leaves the other fields alone. */
  lemma AddField(content: seq<byte>, numbers: seq<U32>, n: nat, f: nat, item: seq<byte>,
                 content': seq<byte>, numbers': seq<U32>)
    requires TableIn(content, numbers, n) && f < n && |numbers'| == |numbers|
    requires content' == content + item
    requires forall k :: 0 <= k < |numbers| && k != 2 * f && k != 2 * f + 1 ==> numbers'[k] == numbers[k]
    requires numbers'[2 * f] == (if item == [] then 0 else |content|) && numbers'[2 * f + 1] == |item|
    ensures TableIn(content', numbers', n)
    ensures FieldIn(content', numbers', f) == item
    ensures forall g :: 0 <= g < n && g != f ==> FieldIn(content', numbers', g) == FieldIn(content, numbers, g)
  {
    forall g | 0 <= g < n && g != f
      ensures FieldIn(content', numbers', g) == FieldIn(content, numbers, g)
    {
      assert numbers[2 * g] as int + numbers[2 * g + 1] as int <= |content|;
    }
  }

  class Builder {
    var data: array<byte>
    var dataUsed: nat
    var dataCap: nat
    var number: array<U32>
    var numberUsed: nat
    var numberCap: nat

    // The capacities as powers of two.
    ghost var dataLog: nat
    ghost var numberLog: nat

    ghost predicate Valid()
      reads this
    {
      && data.Length == dataCap == Pow2(dataLog) && dataLog <= 31 && dataUsed <= dataCap
      && MOL_NUM_T_SIZE * number.Length == numberCap
      && numberUsed <= numberCap && numberUsed % MOL_NUM_T_SIZE == 0
    }

    /** The number buffer of a dynvec grows too; that of a table does not. */
    ghost predicate NumbersGrow()
      reads this
    {
      numberCap == Pow2(numberLog) && numberLog <= 31
    }

    ghost function Content(): seq<byte>
      requires Valid()
      reads this, data
    {
      data[..dataUsed]
    }

    ghost function Offsets(): seq<U32>
      requires Valid()
      reads this, number
    {
      number[..numberUsed / MOL_NUM_T_SIZE]
    }

    /** `mol_builder_initialize_with_capacity`, with the logarithms of the capacities that double. */
    constructor (dataCapacity: nat, numberCapacity: nat, ghost dlog: nat, ghost nlog: nat)
      requires dataCapacity == Pow2(dlog) && dlog <= 31 && numberCapacity % MOL_NUM_T_SIZE == 0
      ensures Valid() && fresh(data) && fresh(number)
      ensures Content() == [] && Offsets() == []
      ensures numberCap == numberCapacity && numberLog == nlog
    {
      data := new byte[dataCapacity];
      dataUsed, dataCap := 0, dataCapacity;
      number := new U32[numberCapacity / MOL_NUM_T_SIZE];
      numberUsed, numberCap := 0, numberCapacity;
      dataLog, numberLog := dlog, nlog;
    }

    /** `mol_table_builder_initialize`: an offset and a length per field, all zero. */
    constructor Table(dataCapacity: nat, fieldCount: nat, ghost dlog: nat)
      requires dataCapacity == Pow2(dlog) && dlog <= 31
      ensures fresh(data) && fresh(number) && IsTable(fieldCount)
      ensures Content() == [] && forall f :: 0 <= f < fieldCount ==> Field(f) == []
    {
      data := new byte[dataCapacity];
      dataUsed, dataCap := 0, dataCapacity;
      number := new U32[fieldCount * 2](_ => 0);
      numberUsed, numberCap := MOL_NUM_T_SIZE * (fieldCount * 2), MOL_NUM_T_SIZE * (fieldCount * 2);
      dataLog := dlog;
    }

    ghost predicate IsTable(fieldCount: nat)
      reads this, data, number
    {
      Valid() && TableIn(Content(), number[..], fieldCount)
    }

    /** The bytes set for field `f`; none when it is unset or was set to nothing. */
    ghost function Field(f: nat): seq<byte>
      requires f < number.Length / 2 && IsTable(number.Length / 2)
      reads this, data, number
    {
      FieldIn(Content(), number[..], f)
    }

    /** `mol_table_builder_add`: earlier bytes of a field stay in the buffer but are no longer part of it. */
    method TableAdd(f: nat, item: seq<byte>, ghost fieldCount: nat)
      requires IsTable(fieldCount) && f < fieldCount && dataUsed + |item| <= CAPACITY_MAX
      modifies this, data, number
      ensures IsTable(fieldCount) && number == old(number) && (data == old(data) || fresh(data))
      ensures Field(f) == item
      ensures forall g :: 0 <= g < fieldCount && g != f ==> Field(g) == old(Field(g))
      ensures dataUsed == old(dataUsed) + |item|
    {
      ghost var content, numbers := Content(), number[..];
      if |item| == 0 {
        number[f * 2] := 0;
        number[f * 2 + 1] := 0;
      } else {
        GrowData(dataUsed + |item|);
        number[f * 2] := dataUsed;
        number[f * 2 + 1] := |item|;
        Append(item);
      }
      AddField(content, numbers, fieldCount, f, item, Content(), number[..]);
    }

    /** Where the growing loop stands after `turn` doublings: once the capacity has wrapped it is zero. */
    ghost predicate Growing(content: seq<byte>, log: nat, turn: nat)
      reads this, data
    {
      && data.Length == dataCap
      && if log + turn <= 31 then Valid() && Content() == content && dataLog == log + turn else dataCap == 0
    }

    /** One turn of the growing loop. */
    method DoubleData(ghost content: seq<byte>, ghost log: nat, ghost turn: nat)
      requires Growing(content, log, turn)
      modifies this`data, this`dataCap, this`dataLog
      ensures Growing(content, log, turn + 1) && fresh(data)
      ensures dataCap == Wrap32(2 * old(dataCap))
    {
      ghost var e := log + turn;
      if e <= 31 {
        DoublingOnce(e);
      }
      var cap := Wrap32(2 * dataCap);
      var grown := Realloc(data, cap, 0);
      if e < 31 {
        assert grown[..dataUsed] == grown[..dataCap][..dataUsed] == data[..][..dataUsed];
      }
      data, dataCap, dataLog := grown, cap, dataLog + 1;
    }

    /**
     * The growing loop, at most `turns` times round. It is done exactly if one of that many doublings in 32 bits
     * gives the need, and has then kept the content.
     */
    method GrowDataWithin(need: U32, turns: nat) returns (done: bool)
      requires Valid()
      modifies this`data, this`dataCap, this`dataLog
      ensures done <==> exists n :: 0 <= n <= turns && Doubled(old(dataCap), n) >= need
      ensures data == old(data) || fresh(data)
      ensures done ==> Valid() && dataCap >= need && Content() == old(Content())
    {
      ghost var content, cap, log, turn: nat := Content(), dataCap, dataLog, 0;
      var left := turns;
      while dataCap < need && left > 0
        invariant turn + left == turns && (data == old(data) || fresh(data))
        invariant Growing(content, log, turn) && dataCap == Doubled(cap, turn)
        invariant forall n :: 0 <= n < turn ==> Doubled(cap, n) < need
        decreases left
      {
        DoubleData(content, log, turn);
        left, turn := left - 1, turn + 1;
      }
      done := dataCap >= need;
    }

    /** For needs of at most 2^31 bytes the loop ends, within 31 turns. */
    method GrowData(need: nat)
      requires Valid() && need <= CAPACITY_MAX
      modifies this`data, this`dataCap, this`dataLog
      ensures Valid() && dataCap >= need && (data == old(data) || fresh(data))
      ensures Content() == old(Content())
    {
      DoubledIs(dataLog, 31 - dataLog);
      Pow2Word();
      var done := GrowDataWithin(need, 31);
    }

    /** Doubles the number buffer until `need` bytes fit. */
    method GrowNumber(need: nat)
      requires Valid() && NumbersGrow() && need <= CAPACITY_MAX
      modifies this`number, this`numberCap, this`numberLog
      ensures Valid() && NumbersGrow() && numberCap >= need && (number == old(number) || fresh(number))
      ensures Offsets() == old(Offsets())
    {
      while numberCap < need
        invariant Valid() && NumbersGrow() && Offsets() == old(Offsets()) && (number == old(number) || fresh(number))
        decreases need - numberCap
      {
        DoubleNumber(need);
      }
    }

    method DoubleNumber(ghost need: nat)
      requires Valid() && NumbersGrow() && numberCap < need <= CAPACITY_MAX
      modifies this`number, this`numberCap, this`numberLog
      ensures Valid() && NumbersGrow() && numberCap > old(numberCap) && fresh(number)
      ensures Offsets() == old(Offsets())
    {
      DoublingFits(numberLog, need);
      var cap := Wrap32(numberCap * 2);
      var grown := Realloc(number, cap / MOL_NUM_T_SIZE, 0);
      ghost var used := numberUsed / MOL_NUM_T_SIZE;
      assert grown[..used] == grown[..number.Length][..used] == number[..][..used];
      number, numberCap, numberLog := grown, cap, numberLog + 1;
    }

    /** `mol_dynvec_builder_push`. */
    method Push(item: seq<byte>)
      requires Valid() && NumbersGrow() && data as object != number
      requires dataUsed + |item| <= CAPACITY_MAX && numberUsed + MOL_NUM_T_SIZE <= CAPACITY_MAX
      modifies this, data, number
      ensures Valid() && NumbersGrow()
      ensures (data == old(data) || fresh(data)) && (number == old(number) || fresh(number))
      ensures Content() == old(Content()) + item
      ensures Offsets() == old(Offsets()) + [old(|Content()|)]
    {
      GrowData(dataUsed + |item|);
      GrowNumber(numberUsed + MOL_NUM_T_SIZE);
      RecordOffset();
      Append(item);
    }

    /** Notes the current end of the data as the next offset. */
    method RecordOffset()
      requires Valid() && numberUsed + MOL_NUM_T_SIZE <= numberCap && dataUsed <= CAPACITY_MAX
      modifies this`numberUsed, number
      ensures Valid() && Offsets() == old(Offsets()) + [dataUsed]
    {
      var nextNumberIndex := numberUsed / MOL_NUM_T_SIZE;
      number[nextNumberIndex] := dataUsed;
      numberUsed := numberUsed + MOL_NUM_T_SIZE;
      assert number[..nextNumberIndex + 1] == number[..nextNumberIndex] + [dataUsed];
    }

    method Append(item: seq<byte>)
      requires Valid() && dataUsed + |item| <= dataCap
      modifies this`dataUsed, data
      ensures Valid() && Content() == old(Content()) + item
    {
      if |item| != 0 {
        CopyInto(data, dataUsed, item);
        dataUsed := dataUsed + |item|;
      }
    }
  }

  lemma DoublingOnce(e: nat)
    requires e <= 31
    ensures Wrap32(2 * Pow2(e)) == if e < 31 then Pow2(e + 1) else 0
  {
    DoubledIs(e, 0);
    DoubledIs(e, 1);
  }

  /** A power-of-two capacity below a need of at most 2^31 doubles without wrapping. */
  lemma DoublingFits(e: nat, need: nat)
    requires e <= 31 && Pow2(e) < need <= CAPACITY_MAX
    ensures e < 31 && Wrap32(Pow2(e) * 2) == Pow2(e + 1)
  {
    Pow2Word();
    if e < 31 {
      Pow2Mono(e + 1, 31);
    }
  }

  // ----- dynvec

  /**
   * A list with more than 2^31 bytes of content has a first item whose push needs more than 2^31 bytes; growing for
   * it never ends, though the list's encoding may well be below 2^32 bytes.
   */
  lemma LongListStalls(items: seq<seq<byte>>, e: nat) returns (i: nat)
    requires |Flatten(items)| > CAPACITY_MAX && |EncodeDynVec(items)| < BASE && e <= 31
    ensures i < |items| && SizeBefore(items, i) <= CAPACITY_MAX < SizeBefore(items, i + 1) < BASE
    ensures Pow2(e) < BASE && forall n: nat :: Doubled(Pow2(e), n) < SizeBefore(items, i + 1)
  {
    i := FirstOversized(items, |items|);
    EncodedSize(items);
    SizeWithin(items, i + 1);
    GrowthStops(e, SizeBefore(items, i + 1));
  }

  lemma SizeWithin(items: seq<seq<byte>>, k: nat)
    requires k <= |items|
    ensures SizeBefore(items, k) <= |Flatten(items)|
  {
    BeforeAll(items);
    BeforeMono(items, k, |items|);
  }

  lemma {:induction false} FirstOversized(items: seq<seq<byte>>, m: nat) returns (i: nat)
    requires m <= |items| && (m == |items| ==> |Flatten(items)| > CAPACITY_MAX)
    requires m < |items| ==> SizeBefore(items, m) > CAPACITY_MAX
    ensures i < |items| && SizeBefore(items, i) <= CAPACITY_MAX < SizeBefore(items, i + 1)
  {
    BeforeAll(items);
    i := m - 1;
    if SizeBefore(items, i) > CAPACITY_MAX {
      i := FirstOversized(items, i);
    }
  }

  /** There are such lists: one `Bytes` with 2^31 bytes of content. */
  lemma LongListExists(content: seq<byte>)
    requires |content| == CAPACITY_MAX
    ensures var items := [EncodeBytes(content)];
      IsBytes(items[0]) && |Flatten(items)| > CAPACITY_MAX && |EncodeDynVec(items)| < BASE
  {
    var items := [EncodeBytes(content)];
    assert items[1..] == [];
    assert Flatten(items) == EncodeBytes(content) + [];
    EncodedSize(items);
    BytesAreEncodings(EncodeBytes(content));
    assert EncodeBytes(content)[MOL_NUM_T_SIZE..] == content;
  }

  /** The builder has taken in exactly `items`. */
  ghost predicate Holds(content: seq<byte>, offsets: seq<U32>, items: seq<seq<byte>>) {
    && content == Flatten(items)
    && |offsets| == |items|
    && forall k :: 0 <= k < |items| ==> offsets[k] == SizeBefore(items, k)
  }

  lemma HoldsNext(content: seq<byte>, offsets: seq<U32>, items: seq<seq<byte>>, item: seq<byte>, offset: U32)
    requires Holds(content, offsets, items) && offset == |content|
    ensures Holds(content + item, offsets + [offset], items + [item])
  {
    FlattenPush(items, item);
    forall k | 0 <= k <= |items|
      ensures SizeBefore(items + [item], k) == SizeBefore(items, k)
    {
      BeforePush(items, item, k);
    }
    BeforeAll(items);
  }

  lemma {:induction false} FlattenPush(items: seq<seq<byte>>, item: seq<byte>)
    ensures Flatten(items + [item]) == Flatten(items) + item
  {
    if items == [] {
      assert ([] + [item])[1..] == [];
    } else {
      FlattenPush(items[1..], item);
      assert (items + [item])[1..] == items[1..] + [item];
    }
  }

  lemma {:induction false} BeforePush(items: seq<seq<byte>>, item: seq<byte>, k: nat)
    requires k <= |items|
    ensures SizeBefore(items + [item], k) == SizeBefore(items, k)
  {
    if k > 0 {
      BeforePush(items[1..], item, k - 1);
      assert (items + [item])[1..] == items[1..] + [item];
    }
  }

  /** The bytes of the numbers, each moved by `shift`. */
  function PackAll(numbers: seq<U32>, shift: nat): (s: seq<byte>)
    ensures |s| == MOL_NUM_T_SIZE * |numbers|
  {
    if numbers == [] then []
    else PackAll(numbers[..|numbers| - 1], shift) + Pack(numbers[|numbers| - 1] + shift)
  }

  lemma {:induction false} PackAllPush(numbers: seq<U32>, x: U32, shift: nat)
    ensures PackAll(numbers + [x], shift) == PackAll(numbers, shift) + Pack(x + shift)
  {
    assert (numbers + [x])[..|numbers|] == numbers;
  }

  /** Packing the recorded offsets, moved past the header, gives the offset header. */
  lemma {:induction false} PackAllIsHeader(offsets: seq<U32>, items: seq<seq<byte>>, m: nat, shift: nat)
    requires m <= |items| == |offsets| && forall k :: 0 <= k < |items| ==> offsets[k] == SizeBefore(items, k)
    ensures PackAll(offsets[..m], shift) == OffsetBytes(items[..m], shift)
  {
    if m > 0 {
      var l := m - 1;
      var offset, item := offsets[l], items[l];
      PackAllIsHeader(offsets, items, l, shift);
      assert offsets[..m] == offsets[..l] + [offset];
      PackAllPush(offsets[..l], offset, shift);
      assert items[..m] == items[..l] + [item];
      OffsetBytesPush(items[..l], item, shift);
      BeforePrefix(items, l);
    }
  }

  lemma {:induction false} OffsetBytesPush(items: seq<seq<byte>>, item: seq<byte>, start: nat)
    ensures OffsetBytes(items + [item], start)
         == OffsetBytes(items, start) + Pack(start + SizeBefore(items, |items|))
  {
    if items == [] {
      assert ([] + [item])[1..] == [] && OffsetBytes([], start + |item|) == [];
    } else {
      OffsetBytesPush(items[1..], item, start + |items[0]|);
      assert (items + [item])[1..] == items[1..] + [item];
    }
  }

  lemma {:induction false} BeforePrefix(items: seq<seq<byte>>, k: nat)
    requires k <= |items|
    ensures SizeBefore(items[..k], k) == SizeBefore(items, k)
  {
    if k > 0 {
      BeforePrefix(items[1..], k - 1);
      assert items[..k][1..] == items[1..][..k - 1];
    }
  }

  /** `mol_dynvec_builder_finalize`: with no data at all only the size is written. */
  method Finalize(builder: Builder, ghost items: seq<seq<byte>>) returns (res: array<byte>)
    requires builder.Valid() && Holds(builder.Content(), builder.Offsets(), items)
    requires MOL_NUM_T_SIZE + builder.numberUsed + builder.dataUsed < BASE
    modifies builder.number
    ensures fresh(res) && res.Length == |EncodeDynVec(items)|
    ensures (items == [] || Flatten(items) != []) ==> res[..] == EncodeDynVec(items)
  {
    var size := MOL_NUM_T_SIZE + builder.numberUsed + builder.dataUsed;
    res := new byte[size];
    EncodedSize(items);
    if builder.dataUsed > 0 {
      WriteDynVec(builder, res, items);
    } else {
      CopyInto(res, 0, Pack(size));
      if items == [] {
        assert EncodeDynVec([]) == Pack(MOL_NUM_T_SIZE);
      }
    }
  }

  method WriteDynVec(builder: Builder, res: array<byte>, ghost items: seq<seq<byte>>)
    requires builder.Valid() && Holds(builder.Content(), builder.Offsets(), items)
    requires MOL_NUM_T_SIZE + builder.numberUsed + builder.dataUsed == res.Length < BASE
    requires res != builder.data && res as object != builder.number
    modifies builder.number, res
    ensures res[..] == EncodeDynVec(items)
  {
    ghost var content, offsets := builder.Content(), builder.Offsets();
    OffsetsBelow(content, offsets, items);
    var numberCount := builder.numberUsed / MOL_NUM_T_SIZE;
    var headerSize := MOL_NUM_T_SIZE + builder.numberUsed;
    var packed := ShiftNumbers(builder.number, numberCount, headerSize, offsets);
    PackAllIsHeader(offsets, items, |items|, headerSize);
    assert offsets[..|items|] == offsets && items[..|items|] == items;
    FlattenThree(Pack(res.Length), packed, content);
    WriteAll(res, [Pack(res.Length), packed, builder.data[..builder.dataUsed]]);
  }

  /** Writes pieces one after the other through an advancing destination. */
  method WriteAll(res: array<byte>, pieces: seq<seq<byte>>)
    requires res.Length == |Flatten(pieces)|
    modifies res
    ensures res[..] == Flatten(pieces)
  {
    var dst := 0;
    for i := 0 to |pieces|
      invariant dst == |Flatten(pieces[..i])| && dst + |Flatten(pieces[i..])| == res.Length
      invariant res[..dst] == Flatten(pieces[..i])
    {
      assert pieces[i..][1..] == pieces[i + 1..];
      assert pieces[..i + 1] == pieces[..i] + [pieces[i]];
      FlattenPush(pieces[..i], pieces[i]);
      CopyInto(res, dst, pieces[i]);
      dst := dst + |pieces[i]|;
    }
    assert pieces[..|pieces|] == pieces && res[..res.Length] == res[..];
  }

  lemma OffsetsBelow(content: seq<byte>, offsets: seq<U32>, items: seq<seq<byte>>)
    requires Holds(content, offsets, items)
    ensures forall k :: 0 <= k < |offsets| ==> offsets[k] <= |content|
  {
    BeforeAll(items);
    forall k | 0 <= k < |offsets|
      ensures offsets[k] <= |content|
    {
      BeforeMono(items, k, |items|);
    }
  }

  /** Moves the recorded offsets past the header, in place, and hands out their bytes. */
  method ShiftNumbers(number: array<U32>, count: nat, shift: nat, ghost offsets: seq<U32>) returns (packed: seq<byte>)
    requires count <= number.Length && number[..count] == offsets
    requires forall k :: 0 <= k < count ==> offsets[k] + shift < BASE
    modifies number
    ensures packed == PackAll(offsets, shift)
  {
    packed := [];
    for i := 0 to count
      invariant number[i..count] == offsets[i..]
      invariant packed == PackAll(offsets[..i], shift)
    {
      assert number[i] == number[i..count][0] == offsets[i];
      number[i] := number[i] + shift;
      packed := packed + Pack(number[i]);
      assert offsets[..i + 1] == offsets[..i] + [offsets[i]];
      PackAllPush(offsets[..i], offsets[i], shift);
      assert number[i + 1..count] == offsets[i..][1..];
    }
    assert offsets[..count] == offsets;
  }

  /** Pushes every item and finalizes. */
  method BuildDynVec(items: seq<seq<byte>>) returns (res: array<byte>)
    requires |Flatten(items)| <= CAPACITY_MAX && MOL_NUM_T_SIZE * |items| <= CAPACITY_MAX
    requires |EncodeDynVec(items)| < BASE
    ensures fresh(res) && res.Length == |EncodeDynVec(items)|
    ensures (items == [] || Flatten(items) != []) ==> res[..] == EncodeDynVec(items)
  {
    assert Pow2(6) == 64;
    var builder := new Builder(64, 64, 6, 6);
    for i := 0 to |items|
      invariant builder.Valid() && builder.NumbersGrow() && builder.data as object != builder.number
      invariant fresh(builder) && fresh(builder.data) && fresh(builder.number)
      invariant Holds(builder.Content(), builder.Offsets(), items[..i])
    {
      BeforeAll(items);
      BeforeMono(items, i + 1, |items|);
      BeforeStep(items, i);
      BeforeAll(items[..i]);
      BeforePrefix(items, i);
      ghost var content, offsets := builder.Content(), builder.Offsets();
      builder.Push(items[i]);
      HoldsNext(content, offsets, items[..i], items[i], |content|);
      assert items[..i + 1] == items[..i] + [items[i]];
    }
    assert items[..|items|] == items;
    EncodedSize(items);
    res := Finalize(builder, items);
  }

  /** The round trip: what the builder makes of a list of `Bytes` verifies, and slice `k` is item `k`. */
  lemma BuiltVecReadsBack(mem: Memory, input: Seg, items: seq<seq<byte>>, k: U32)
    requires In(mem, input) && View(mem, input) == EncodeDynVec(items)
    requires forall j :: 0 <= j < |items| ==> IsBytes(items[j])
    ensures IsBytesVec(View(mem, input))
    ensures items != [] ==> ItemCount(mem, input) == |items|
    ensures k < |items| ==> DynvecSliceByIndex(mem, input, k).SegOk?
                            && In(mem, DynvecSliceByIndex(mem, input, k).seg)
                            && View(mem, DynvecSliceByIndex(mem, input, k).seg) == items[k]
    ensures k >= |items| ==> DynvecSliceByIndex(mem, input, k) == SegErr(MOL_ERR_INDEX_OUT_OF_BOUNDS)
  {
    BytesVecsAreEncodings(View(mem, input));
    if items == [] {
      EmptyVec(mem, input);
      ReadInside(mem, input, 0);
    } else {
      EncodingHasHeader(items);
      SlicesOfEncoding(items);
      ReadCount(mem, input, |items|);
      SliceIsItem(mem, input, |items|, k);
      assert k < |items| ==> Slice(View(mem, input), |items|, k) == Slices(View(mem, input), |items|)[k];
    }
  }

  // ----- table

  const DEFAULT_BYTE32: seq<byte> := seq(32, _ => 0)

  /** A field, or its default when nothing was set. */
  function OrDefault(field: seq<byte>, default: seq<byte>): seq<byte> {
    if field == [] then default else field
  }

  /** `MolBuilder_Script_build`. */
  method ScriptBuild(builder: Builder) returns (res: array<byte>)
    requires builder.IsTable(3)
    requires |builder.Field(0)| + |builder.Field(1)| + |builder.Field(2)| + 53 < BASE
    ensures fresh(res)
    ensures res[..] == EncodeDynVec([OrDefault(builder.Field(0), DEFAULT_BYTE32),
                                     OrDefault(builder.Field(1), [0]),
                                     OrDefault(builder.Field(2), Pack(0))])
  {
    var codeHash := ReadField(builder, 0, DEFAULT_BYTE32);
    var hashType := ReadField(builder, 1, [0]);
    var args := ReadField(builder, 2, Pack(0));
    var offset := 16;
    var size := offset + |codeHash| + |hashType| + |args|;
    var pieces := [Pack(size), Pack(offset), Pack(offset + |codeHash|), Pack(offset + |codeHash| + |hashType|),
                   codeHash, hashType, args];
    PiecesAreEncoding(codeHash, hashType, args, pieces);
    res := new byte[size];
    WriteAll(res, pieces);
  }

  lemma PiecesAreEncoding(a: seq<byte>, b: seq<byte>, c: seq<byte>, pieces: seq<seq<byte>>)
    requires pieces == [Pack(16 + |a| + |b| + |c|), Pack(16), Pack(16 + |a|), Pack(16 + |a| + |b|), a, b, c]
    ensures Flatten(pieces) == EncodeDynVec([a, b, c])
    ensures |Flatten(pieces)| == 16 + |a| + |b| + |c|
  {
    FlattenSeven(pieces);
    FlattenThree(a, b, c);
    OffsetsThree(a, b, c, 16);
  }

  lemma FlattenSeven(p: seq<seq<byte>>)
    requires |p| == 7
    ensures Flatten(p) == p[0] + (p[1] + p[2] + p[3]) + (p[4] + p[5] + p[6])
  {
    assert p == [p[0]] + ([p[1], p[2], p[3]] + [p[4], p[5], p[6]]);
    FlattenJoin([p[1], p[2], p[3]], [p[4], p[5], p[6]]);
    FlattenThree(p[1], p[2], p[3]);
    FlattenThree(p[4], p[5], p[6]);
    assert p[1..] == [p[1], p[2], p[3]] + [p[4], p[5], p[6]];
  }

  lemma {:induction false} FlattenJoin(p: seq<seq<byte>>, q: seq<seq<byte>>)
    ensures Flatten(p + q) == Flatten(p) + Flatten(q)
  {
    if p == [] {
      assert p + q == q;
    } else {
      FlattenJoin(p[1..], q);
      assert (p + q)[0] == p[0] && (p + q)[1..] == p[1..] + q;
      Associate(p[0], Flatten(p[1..]), Flatten(q));
    }
  }

  lemma Associate(a: seq<byte>, b: seq<byte>, c: seq<byte>)
    ensures a + b + c == a + (b + c)
  {
  }

  method ReadField(builder: Builder, f: nat, default: seq<byte>) returns (field: seq<byte>)
    requires builder.IsTable(3) && f < 3
    ensures field == OrDefault(builder.Field(f), default)
  {
    var len := builder.number[2 * f + 1];
    if len == 0 {
      field := default;
    } else {
      var of := builder.number[2 * f];
      var end := of as int + len as int;
      assert builder.Content()[of..end] == builder.data[of..end];
      field := builder.data[of..end];
    }
  }

  /** Setting the three fields and building gives the script's encoding. */
  method BuildScript(codeHash: seq<byte>, hashType: byte, args: seq<byte>) returns (res: array<byte>)
    requires |codeHash| == BYTE32_SIZE && |args| + 38 <= CAPACITY_MAX
    ensures fresh(res) && res[..] == EncodeScript(codeHash, hashType, args)
  {
    assert Pow2(8) == 256;
    var builder := new Builder.Table(256, 3, 8);
    builder.TableAdd(0, codeHash, 3);
    builder.TableAdd(1, [hashType], 3);
    builder.TableAdd(2, EncodeBytes(args), 3);
    res := ScriptBuild(builder);
  }
}
