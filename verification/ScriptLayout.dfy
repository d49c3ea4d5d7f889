/** The bytes of a `Script`, and the fixed positions at which the on-chain scripts read it. */
module ScriptLayout {
  import opened Numbers
  import opened MoleculeLayout
  import opened MoleculeReader

  const CODE_HASH_START: nat := 16
  const HASH_TYPE_START: nat := 48
  const ARGS_START: nat := 53

  function EncodeScript(codeHash: seq<byte>, hashType: byte, args: seq<byte>): seq<byte> {
    EncodeDynVec([codeHash, [hashType], EncodeBytes(args)])
  }

  lemma FlattenThree(a: seq<byte>, b: seq<byte>, c: seq<byte>)
    ensures Flatten([a, b, c]) == a + b + c
  {
    assert [a, b, c][1..] == [b, c] && [b, c][1..] == [c] && [c][1..] == [];
    assert Flatten([c]) == c + [];
  }

  lemma OffsetsThree(a: seq<byte>, b: seq<byte>, c: seq<byte>, start: nat)
    ensures OffsetBytes([a, b, c], start) == Pack(start) + Pack(start + |a|) + Pack(start + |a| + |b|)
  {
    assert [a, b, c][1..] == [b, c] && [b, c][1..] == [c] && [c][1..] == [];
    assert OffsetBytes([c], start + |a| + |b|) == Pack(start + |a| + |b|) + [];
  }

  /** Every field of a script with a 32-byte code hash sits at the position the scripts hard-code. */
  lemma ScriptPositions(codeHash: seq<byte>, hashType: byte, args: seq<byte>)
    requires |codeHash| == BYTE32_SIZE
    ensures var s := EncodeScript(codeHash, hashType, args);
      && |s| == ARGS_START + |args|
      && s[CODE_HASH_START..HASH_TYPE_START] == codeHash
      && s[HASH_TYPE_START] == hashType
      && s[ARGS_START..] == args
  {
    var body := EncodeBytes(args);
    FlattenThree(codeHash, [hashType], body);
    OffsetsThree(codeHash, [hashType], body, HeaderSize(3));
    var s := EncodeScript(codeHash, hashType, args);
    var head := Pack(ARGS_START + |args|) + (Pack(16) + Pack(48) + Pack(49));
    assert |head| == CODE_HASH_START;
    assert s == head + (codeHash + [hashType] + body);
    assert s[CODE_HASH_START..] == codeHash + [hashType] + body;
    assert s[CODE_HASH_START..][33..] == body;
    assert body[MOL_NUM_T_SIZE..] == args;
  }

  /** The three fields determine the bytes, and the bytes the fields. */
  lemma ScriptInjective(c1: seq<byte>, h1: byte, a1: seq<byte>, c2: seq<byte>, h2: byte, a2: seq<byte>)
    requires |c1| == |c2| == BYTE32_SIZE
    ensures EncodeScript(c1, h1, a1) == EncodeScript(c2, h2, a2) <==> c1 == c2 && h1 == h2 && a1 == a2
  {
    ScriptPositions(c1, h1, a1);
    ScriptPositions(c2, h2, a2);
  }

  /** What strict verification accepts is canonical: its slices, encoded again, give the same bytes. */
  lemma AcceptedScriptIsCanonical(s: seq<byte>)
    requires IsScript(s, false)
    ensures var code, kind, body := Slice(s, 3, 0), Slice(s, 3, 1), Slice(s, 3, 2);
      && |code| == BYTE32_SIZE && |kind| == 1 && |body| >= MOL_NUM_T_SIZE
      && s == EncodeScript(code, kind[0], body[MOL_NUM_T_SIZE..])
  {
    var code, kind, body := Slice(s, 3, 0), Slice(s, 3, 1), Slice(s, 3, 2);
    HeaderIsEncoding(s, 3);
    assert Slices(s, 3) == [code, kind, body];
    OffsetsOrdered(s, 3, 2, 3);
    assert Unpack(s, 0) == |s|;
    BytesAreEncodings(body);
    assert kind == [kind[0]];
  }

  /** Every encoding of three proper fields is accepted. */
  lemma EncodedScriptIsAccepted(codeHash: seq<byte>, hashType: byte, args: seq<byte>)
    requires |codeHash| == BYTE32_SIZE && ARGS_START + |args| < BASE
    ensures IsScript(EncodeScript(codeHash, hashType, args), false)
  {
    var items := [codeHash, [hashType], EncodeBytes(args)];
    var s := EncodeScript(codeHash, hashType, args);
    ScriptPositions(codeHash, hashType, args);
    EncodingHasHeader(items);
    SlicesOfEncoding(items);
    HeaderCount(s, 3);
    assert Slice(s, 3, 0) == Slices(s, 3)[0] && Slice(s, 3, 1) == Slices(s, 3)[1] && Slice(s, 3, 2) == Slices(s, 3)[2];
    BytesAreEncodings(EncodeBytes(args));
    assert EncodeBytes(args)[MOL_NUM_T_SIZE..] == args;
  }

  /** Strict verification accepts exactly the encodings of a 32-byte code hash, a hash type and args. */
  lemma ScriptsAreEncodings(s: seq<byte>)
    requires |s| < BASE
    ensures IsScript(s, false) <==>
            exists codeHash: seq<byte>, hashType: byte, args: seq<byte> ::
              |codeHash| == BYTE32_SIZE && s == EncodeScript(codeHash, hashType, args)
  {
    if IsScript(s, false) {
      AcceptedScriptIsCanonical(s);
    }
    if codeHash: seq<byte>, hashType: byte, args: seq<byte> :|
      |codeHash| == BYTE32_SIZE && s == EncodeScript(codeHash, hashType, args) {
      ScriptPositions(codeHash, hashType, args);
      EncodedScriptIsAccepted(codeHash, hashType, args);
    }
  }

  /** The getters and the fixed offsets read the same fields of an accepted script. */
  lemma GettersAgree(mem: Memory, input: Seg)
    requires In(mem, input) && IsScript(View(mem, input), false)
    ensures var s := View(mem, input);
      && |s| >= ARGS_START
      && DynvecSliceByIndex(mem, input, 0).SegOk? && In(mem, DynvecSliceByIndex(mem, input, 0).seg)
      && View(mem, DynvecSliceByIndex(mem, input, 0).seg) == s[CODE_HASH_START..HASH_TYPE_START]
      && DynvecSliceByIndex(mem, input, 2).SegOk?
      && var raw := FixvecSliceRawBytes(mem, DynvecSliceByIndex(mem, input, 2).seg);
         In(mem, raw) && View(mem, raw) == s[ARGS_START..]
  {
    var s := View(mem, input);
    AcceptedScriptIsCanonical(s);
    var code, kind, body := Slice(s, 3, 0), Slice(s, 3, 1), Slice(s, 3, 2);
    ScriptPositions(code, kind[0], body[MOL_NUM_T_SIZE..]);
    SliceIsItem(mem, input, 3, 0);
    SliceIsItem(mem, input, 3, 2);
    RawBytesAreContent(mem, DynvecSliceByIndex(mem, input, 2).seg);
  }
}
