/** What acceptance by the pool's script means for the cells, told in their own bytes and numbers. */
module AcceptedCells {
  import opened Numbers
  import opened ByteOrder
  import opened Transaction
  import opened PoolRuns
  import opened PoolRules

  /** The hash that stands for CKB. */
  ghost predicate AllZero(hash: seq<byte>) {
    forall k :: 0 <= k < |hash| ==> hash[k] == 0
  }

  lemma ZeroIsCkb(hash: Hash)
    ensures hash == CKB_HASH <==> AllZero(hash)
  {
    if AllZero(hash) {
      assert forall k :: 0 <= k < 32 ==> hash[k] == CKB_HASH[k];
    }
  }

  /** A cell of the asset `udt` that holds `amount`, if it is long enough to hold any. */
  ghost predicate Holds(udt: Hash, cell: Cell, amount: nat) {
    if AllZero(udt) then cell.typ.None? && cell.capacity == amount
    else cell.typ.Some? && cell.typ.value.hash == udt && (|cell.data| >= 16 ==> LeVal(cell.data[..16]) == amount)
  }

  lemma LockedIsHeld(buf: Buffer, udt: Hash, cell: Cell, amount: nat)
    requires OfAsset(udt, cell) && amount == Locked(buf, udt, cell)
    ensures Holds(udt, cell, amount)
  {
    ZeroIsCkb(udt);
    if udt != CKB_HASH && |cell.data| >= 16 {
      assert LoadInto(buf, cell.data, UDT_AMOUNT_SIZE)[0..16] == cell.data[..16];
    }
  }

  // ----- a triple

  lemma TripleLocksRead(c: Consts, tx: Tx, i: nat)
    requires TripleOk(c, tx, i)
    ensures i + 2 < |tx.inputs| && i + 2 < |tx.outputs|
    ensures tx.inputs[i].lock.codeHash == c.lockCode && |tx.inputs[i].lock.args| == 64
    ensures tx.inputs[i].lock.hash == tx.inputs[i + 1].lock.hash == tx.inputs[i + 2].lock.hash
    ensures tx.inputs[i].lock.hash == tx.outputs[i].lock.hash == tx.outputs[i + 1].lock.hash == tx.outputs[i + 2].lock.hash
  {
  }

  lemma TripleHeadsRead(c: Consts, tx: Tx, i: nat)
    requires TripleOk(c, tx, i)
    ensures i < |tx.inputs| && i < |tx.outputs| && tx.inputs[i].typ.Some? && tx.outputs[i].typ.Some?
    ensures tx.outputs[i].typ.value.codeHash == c.poolCode && |tx.outputs[i].typ.value.args| == 44
    ensures tx.inputs[i].typ.value.hash == tx.outputs[i].typ.value.hash
    ensures |tx.inputs[i].data| == 48 && |tx.outputs[i].data| == 48
  {
  }

  /** The state of a pool as its cell's data spell it. */
  function Spelt(data: seq<byte>): Pool
    requires |data| == 48
  {
    Pool(LeVal(data[0..16]), LeVal(data[16..32]), LeVal(data[32..48]))
  }

  lemma RecordedIsSpelt(data: seq<byte>)
    requires |data| == 48
    ensures Recorded(data) == Spelt(data)
  {
  }

  /** The two cells behind the head hold its reserves, of the assets that the lock's args name. */
  lemma TripleAmountsRead(c: Consts, tx: Tx, i: nat)
    requires TripleOk(c, tx, i)
    ensures i + 2 < |tx.inputs| && i + 2 < |tx.outputs| && |tx.inputs[i].lock.args| == 64
    ensures |tx.inputs[i].data| == 48 && |tx.outputs[i].data| == 48
    ensures var args, p, q := tx.inputs[i].lock.args, Spelt(tx.inputs[i].data), Spelt(tx.outputs[i].data);
      && Holds(args[..32], tx.inputs[i + 1], p.r1) && Holds(args[..32], tx.outputs[i + 1], q.r1)
      && Holds(args[32..], tx.inputs[i + 2], p.r2) && Holds(args[32..], tx.outputs[i + 2], q.r2)
  {
    var lock := tx.inputs[i].lock;
    LockedIsHeld(c.At(i).before1, Udt1(lock), tx.inputs[i + 1], Before(tx, i).r1);
    LockedIsHeld(c.At(i).after1, Udt1(lock), tx.outputs[i + 1], After(tx, i).r1);
    LockedIsHeld(c.At(i).before2, Udt2(lock), tx.inputs[i + 2], Before(tx, i).r2);
    LockedIsHeld(c.At(i).after2, Udt2(lock), tx.outputs[i + 2], After(tx, i).r2);
    RecordedIsSpelt(tx.inputs[i].data);
    RecordedIsSpelt(tx.outputs[i].data);
  }

  // ----- a valid step

  /** The least reserve of an asset: 300 CKB, or one unit. */
  ghost function Least(udt: Hash): nat {
    if AllZero(udt) then 30000000000 else 1
  }

  lemma DefaultIsLeast(udt: Hash)
    ensures Default(udt) == Least(udt)
  {
    ZeroIsCkb(udt);
  }

  /** `cell` is of the token that belongs to the pool at input 0. */
  ghost predicate TokenOfFirst(c: Consts, tx: Tx, cell: Cell) {
    && tx.inputs != [] && tx.inputs[0].typ.Some? && |tx.inputs[0].typ.value.args| == 44
    && cell.typ.Some? && cell.typ.value.codeHash == c.tokenCode
    && cell.typ.value.args == tx.inputs[0].lock.hash + tx.inputs[0].typ.value.args
  }

  lemma LiquidityCellRead(c: Consts, tx: Tx, cells: seq<Cell>, index: nat)
    requires LiquidityCellOk(c, tx, cells, index)
    ensures index < |cells| && TokenOfFirst(c, tx, cells[index])
  {
  }

  lemma ReadingRead(c: Consts, tx: Tx, i: nat, r: Reading)
    ensures ReadingStepOk(c, tx, i, r) ==>
      var d1, d2 := if r.isCkb1 then 30000000000 else 1, if r.isCkb2 then 30000000000 else 1;
      && r.before.r1 >= d1 && r.before.r2 >= d2 && r.after.r1 > d1 && r.after.r2 > d2
      && Step(Pool(r.before.r1 - d1, r.before.r2 - d2, r.before.liquidity), Pool(r.after.r1 - d1, r.after.r2 - d2, r.after.liquidity))
    ensures ReadingStepOk(c, tx, i, r) && r.before.liquidity < r.after.liquidity ==>
              i == 0 && LiquidityCellOk(c, tx, tx.outputs, 4)
    ensures ReadingStepOk(c, tx, i, r) && r.before.liquidity > r.after.liquidity ==>
              i == 0 && LiquidityCellOk(c, tx, tx.inputs, 3)
  {
  }

  lemma ReadingSpelt(c: Consts, tx: Tx, i: nat)
    requires TripleOk(c, tx, i)
    ensures |tx.inputs[i].lock.args| == 64 && |tx.inputs[i].data| == 48 && |tx.outputs[i].data| == 48
    ensures var args, r := tx.inputs[i].lock.args, ReadingOf(c, tx, i);
      && r.isCkb1 == AllZero(args[..32]) && r.isCkb2 == AllZero(args[32..])
      && r.before == Spelt(tx.inputs[i].data) && r.after == Spelt(tx.outputs[i].data)
  {
    RecordedIsSpelt(tx.inputs[i].data);
    RecordedIsSpelt(tx.outputs[i].data);
    ZeroIsCkb(Udt1(tx.inputs[i].lock));
    ZeroIsCkb(Udt2(tx.inputs[i].lock));
  }

  /**
   * A valid step, in numbers: reserves never below the least and above it afterwards, and without the least ones a
   * step of the pool.
   */
  lemma StepRead(c: Consts, tx: Tx, i: nat)
    requires TripleOk(c, tx, i)
    ensures |tx.inputs[i].lock.args| == 64 && |tx.inputs[i].data| == 48 && |tx.outputs[i].data| == 48
    ensures TripleAt(c, tx, i).valid ==>
      var d1, d2 := Least(tx.inputs[i].lock.args[..32]), Least(tx.inputs[i].lock.args[32..]);
      var p, q := Spelt(tx.inputs[i].data), Spelt(tx.outputs[i].data);
      && p.r1 >= d1 && p.r2 >= d2 && q.r1 > d1 && q.r2 > d2
      && Step(Pool(p.r1 - d1, p.r2 - d2, p.liquidity), Pool(q.r1 - d1, q.r2 - d2, q.liquidity))
  {
    ReadingSpelt(c, tx, i);
    ReadingRead(c, tx, i, ReadingOf(c, tx, i));
  }

  /** Liquidity changes at input 0 only, with a cell of the pool's token at output 4 or at input 3. */
  lemma LiquidityRead(c: Consts, tx: Tx, i: nat)
    requires TripleOk(c, tx, i)
    ensures |tx.inputs[i].data| == 48 && |tx.outputs[i].data| == 48
    ensures TripleAt(c, tx, i).valid && Spelt(tx.inputs[i].data).liquidity < Spelt(tx.outputs[i].data).liquidity ==>
              i == 0 && 4 < |tx.outputs| && TokenOfFirst(c, tx, tx.outputs[4])
    ensures TripleAt(c, tx, i).valid && Spelt(tx.inputs[i].data).liquidity > Spelt(tx.outputs[i].data).liquidity ==>
              i == 0 && 3 < |tx.inputs| && TokenOfFirst(c, tx, tx.inputs[3])
  {
    var r := ReadingOf(c, tx, i);
    ReadingSpelt(c, tx, i);
    ReadingRead(c, tx, i, r);
    if TripleAt(c, tx, i).valid && r.before.liquidity < r.after.liquidity {
      LiquidityCellRead(c, tx, tx.outputs, 4);
    } else if TripleAt(c, tx, i).valid && r.before.liquidity > r.after.liquidity {
      LiquidityCellRead(c, tx, tx.inputs, 3);
    }
  }

  // ----- a creation

  /** A new pool's script runs on output 0 alone, and its args are the first input. */
  lemma CreationGroupRead(c: Consts, tx: Tx, cur: Script)
    requires CreateOk(c, tx, cur)
    ensures tx.refs != [] && cur.args == tx.refs[0]
    ensures forall k :: 0 <= k < |tx.inputs| ==> !HasType(tx.inputs[k], cur.hash)
    ensures tx.outputs != [] && forall k :: 0 <= k < |tx.outputs| ==> (HasType(tx.outputs[k], cur.hash) <==> k == 0)
  {
    GroupEmpty(tx.inputs, cur.hash);
    var at := GroupOfOne(tx.outputs, cur.hash);
  }

  /** Its lock is a pool lock, over two assets in byte order, and shared by the next two outputs. */
  lemma CreationLocksRead(c: Consts, tx: Tx, cur: Script)
    requires CreateOk(c, tx, cur)
    ensures 2 < |tx.outputs| && tx.outputs[0].lock.codeHash == c.lockCode && |tx.outputs[0].lock.args| == 64
    ensures tx.outputs[0].lock.hash == tx.outputs[1].lock.hash == tx.outputs[2].lock.hash
    ensures var args := tx.outputs[0].lock.args;
      exists k :: 0 <= k < 32 && args[..32][..k] == args[32..][..k] && args[..32][k] < args[32..][k]
  {
    LessIsFirstDifference(Udt1(tx.outputs[0].lock), Udt2(tx.outputs[0].lock));
  }

  /** It records the least reserves and no liquidity. */
  lemma CreationStateRead(c: Consts, tx: Tx, cur: Script)
    requires CreateOk(c, tx, cur)
    ensures 2 < |tx.outputs| && |tx.outputs[0].lock.args| == 64 && |tx.outputs[0].data| == 48
    ensures var args := tx.outputs[0].lock.args;
      Spelt(tx.outputs[0].data) == Pool(Least(args[..32]), Least(args[32..]), 0)
  {
    RecordedIsSpelt(tx.outputs[0].data);
    DefaultIsLeast(Udt1(tx.outputs[0].lock));
    DefaultIsLeast(Udt2(tx.outputs[0].lock));
  }

  /** Its first asset cell holds the least reserve. */
  lemma CreationFirstRead(c: Consts, tx: Tx, cur: Script)
    requires CreateOk(c, tx, cur)
    ensures 2 < |tx.outputs| && |tx.outputs[0].lock.args| == 64
    ensures var udt := tx.outputs[0].lock.args[..32]; Holds(udt, tx.outputs[1], Least(udt))
  {
    var udt := Udt1(tx.outputs[0].lock);
    DefaultIsLeast(udt);
    ZeroIsCkb(udt);
    if udt != CKB_HASH && |tx.outputs[1].data| >= 16 {
      assert LoadInto(c.created, tx.outputs[1].data, UDTSWAP_DATA_SIZE)[0..16] == tx.outputs[1].data[..16];
    }
  }

  /** Its second asset cell is typed, and what is loaded of its amount, as far as the first one's length goes, is one. */
  lemma CreationSecondRead(c: Consts, tx: Tx, cur: Script)
    requires CreateOk(c, tx, cur)
    ensures 2 < |tx.outputs| && |tx.outputs[0].lock.args| == 64
    ensures tx.outputs[2].typ.Some? && tx.outputs[2].typ.value.hash == tx.outputs[0].lock.args[32..]
    ensures var args, data1, data2 := tx.outputs[0].lock.args, tx.outputs[1].data, tx.outputs[2].data;
      && (!AllZero(args[..32]) && |data1| >= 16 && |data2| >= 16 ==> LeVal(data2[..16]) == 1)
      && (AllZero(args[..32]) && |data2| >= 8 ==> LeVal(data2[..8] + c.created[8..]) == 1)
      && (!AllZero(args[..32]) && |data1| < 16 && |data2| >= |data1| ==>
            LeVal(data2[..|data1|] + c.created[|data1|..]) == 1)
  {
    var lock := tx.outputs[0].lock;
    var udt1, udt2, data1, data2 := Udt1(lock), Udt2(lock), tx.outputs[1].data, tx.outputs[2].data;
    CkbIsLeast(udt1);
    ZeroIsCkb(udt1);
    if udt1 == CKB_HASH {
      if |data2| >= 8 {
        assert LoadInto(c.created, data2, 8)[0..16] == data2[..8] + c.created[8..];
      }
    } else {
      var buf := LoadInto(c.created, data1, UDTSWAP_DATA_SIZE);
      if |data1| >= 16 && |data2| >= 16 {
        assert LoadInto(buf, data2, |data1|)[0..16] == data2[..16];
      } else if |data1| < 16 && |data2| >= |data1| {
        assert buf == data1 + c.created[|data1|..];
        assert LoadInto(buf, data2, |data1|)[0..16] == data2[..|data1|] + c.created[|data1|..];
      }
    }
  }
}
