/** Exactly which transactions the liquidity token's script accepts, told over the cells themselves. */
module TokenTransfers {
  import opened Numbers
  import opened ByteOrder
  import opened Transaction
  import opened PoolRules
  import opened TokenRules

  /** What the data of the cells of a type spell, added up. */
  function Spelled(cells: seq<Cell>, hash: Hash): nat {
    if cells == [] then 0
    else (if HasType(cells[0], hash) then LeVal(cells[0].data) else 0) + Spelled(cells[1..], hash)
  }

  lemma HeldIsSpelled(cell: Cell)
    requires |cell.data| == 16
    ensures Held(cell) == LeVal(cell.data)
  {
    assert cell.data[0..16] == cell.data;
  }

  lemma {:induction false} GroupProper(cells: seq<Cell>, hash: Hash)
    ensures AllProper(TypeGroup(cells, hash)) <==>
            forall k :: 0 <= k < |cells| && HasType(cells[k], hash) ==> |cells[k].data| == 16 && LeVal(cells[k].data) > 0
  {
    if cells != [] {
      GroupProper(cells[1..], hash);
      assert forall k :: 0 <= k < |cells| - 1 ==> cells[1..][k] == cells[k + 1];
      if HasType(cells[0], hash) {
        var rest := TypeGroup(cells[1..], hash);
        assert TypeGroup(cells, hash) == [cells[0]] + rest;
        assert forall k :: 0 <= k < |rest| ==> TypeGroup(cells, hash)[k + 1] == rest[k];
        assert TypeGroup(cells, hash)[0] == cells[0];
        if |cells[0].data| == 16 {
          HeldIsSpelled(cells[0]);
        }
        ConsProper(cells[0], rest);
      } else {
        assert TypeGroup(cells, hash) == TypeGroup(cells[1..], hash);
      }
    }
  }

  lemma ConsProper(cell: Cell, rest: seq<Cell>)
    ensures AllProper([cell] + rest) <==> AllProper(rest) && |cell.data| == 16 && Held(cell) > 0
  {
    var all := [cell] + rest;
    assert all[0] == cell && forall k :: 0 <= k < |rest| ==> all[k + 1] == rest[k];
  }

  lemma {:induction false} GroupSpelled(cells: seq<Cell>, hash: Hash)
    requires AllProper(TypeGroup(cells, hash))
    ensures Total(TypeGroup(cells, hash)) == Spelled(cells, hash)
  {
    if cells != [] {
      if HasType(cells[0], hash) {
        var rest := TypeGroup(cells[1..], hash);
        assert TypeGroup(cells, hash) == [cells[0]] + rest && ([cells[0]] + rest)[1..] == rest;
        ConsProper(cells[0], rest);
        HeldIsSpelled(cells[0]);
      } else {
        assert TypeGroup(cells, hash) == TypeGroup(cells[1..], hash);
      }
      GroupSpelled(cells[1..], hash);
    }
  }

  /** The token's cells hold 16 bytes each, spelling a positive number, and the numbers add up to less than 2^128. */
  ghost predicate ProperCells(cells: seq<Cell>, hash: Hash) {
    && (forall k :: 0 <= k < |cells| && HasType(cells[k], hash) ==> |cells[k].data| == 16 && LeVal(cells[k].data) > 0)
    && Spelled(cells, hash) < 0x1_0000_0000_0000_0000_0000_0000_0000_0000
  }

  lemma SumExactly(cells: seq<Cell>, hash: Hash)
    ensures SumOk(TypeGroup(cells, hash)) == ProperCells(cells, hash)
    ensures SumOk(TypeGroup(cells, hash)) ==> Total(TypeGroup(cells, hash)) == Spelled(cells, hash)
  {
    GroupProper(cells, hash);
    if AllProper(TypeGroup(cells, hash)) {
      GroupSpelled(cells, hash);
    }
    assert TWO128 == 0x1_0000_0000_0000_0000_0000_0000_0000_0000;
  }

  /**
   * A transfer: with input 0 under another lock than the owner's, the script accepts if and only if all token cells
   * are proper and inputs and outputs add up to the same.
   */
  lemma TransferExactly(c: Consts, tx: Tx, token: Script)
    requires |token.args| == 76 && tx.inputs != [] && tx.inputs[0].lock.hash != token.args[..32]
    ensures TokenAccepts(c, tx, token)
         == (ProperCells(tx.inputs, token.hash) && ProperCells(tx.outputs, token.hash)
             && Spelled(tx.inputs, token.hash) == Spelled(tx.outputs, token.hash))
  {
    SumExactly(tx.inputs, token.hash);
    SumExactly(tx.outputs, token.hash);
  }

  /**
   * Minting and burning: with input 0 under the owner's lock, the script accepts if and only if all token cells are
   * proper, input 0 is a pool with the first input that the token names, and what inputs and outputs add up to
   * differs by as much as the recorded liquidity, modulo 2^128.
   */
  lemma OwnerExactly(c: Consts, tx: Tx, token: Script)
    requires |token.args| == 76 && tx.inputs != [] && tx.inputs[0].lock.hash == token.args[..32]
    requires GroupScript(tx, token) == Some(token)
    ensures TokenAccepts(c, tx, token)
         == (ProperCells(tx.inputs, token.hash) && ProperCells(tx.outputs, token.hash)
             && tx.outputs != [] && tx.inputs[0].typ.Some?
             && tx.inputs[0].typ.value.codeHash == c.poolCode && tx.inputs[0].typ.value.args == token.args[32..]
             && |tx.inputs[0].data| == 48 && |tx.outputs[0].data| == 48
             && (Spelled(tx.inputs, token.hash) + LeVal(tx.outputs[0].data[32..48])
                 - Spelled(tx.outputs, token.hash) - LeVal(tx.inputs[0].data[32..48])) % TWO128 == 0)
  {
    SumExactly(tx.inputs, token.hash);
    SumExactly(tx.outputs, token.hash);
    if OwnerCellsOk(c, tx, Some(token)) && SumOk(TypeGroup(tx.inputs, token.hash)) && SumOk(TypeGroup(tx.outputs, token.hash)) {
      BalancesIsCongruence(Total(TypeGroup(tx.inputs, token.hash)), Total(TypeGroup(tx.outputs, token.hash)),
        Recorded(tx.inputs[0].data).liquidity, Recorded(tx.outputs[0].data).liquidity);
    }
  }

  /** Without proper args, or without inputs, it accepts nothing. */
  lemma NothingElse(c: Consts, tx: Tx, token: Script)
    requires |token.args| != 76 || tx.inputs == []
    ensures !TokenAccepts(c, tx, token)
  {
  }

  // ----- an instance

  lemma SpelledOne(cell: Cell, hash: Hash)
    ensures Spelled([cell], hash) == if HasType(cell, hash) then LeVal(cell.data) else 0
  {
    assert [cell][1..] == [];
  }

  /** One cell is split in two, with no pool in the transaction. */
  lemma SplitIsAccepted(c: Consts, token: Script, from: Script, to1: Script, to2: Script,
                        refs: seq<TxIn>, caps: seq<U64>, x: nat, y: nat)
    requires |token.args| == 76 && from.hash != token.args[..32] && |caps| == 3
    requires x > 0 && y > 0 && x + y < TWO128
    ensures TokenAccepts(c, Tx(refs, [Cell(caps[0], from, Some(token), ToLe(x + y, 16))],
                               [Cell(caps[1], to1, Some(token), ToLe(x, 16)), Cell(caps[2], to2, Some(token), ToLe(y, 16))]), token)
  {
    var a, b, d := Cell(caps[0], from, Some(token), ToLe(x + y, 16)), Cell(caps[1], to1, Some(token), ToLe(x, 16)),
                   Cell(caps[2], to2, Some(token), ToLe(y, 16));
    AmountRange();
    LeOfToLe(x + y, 16);
    LeOfToLe(x, 16);
    LeOfToLe(y, 16);
    SpelledOne(a, token.hash);
    SpelledOne(d, token.hash);
    assert [b, d][1..] == [d];
    TransferExactly(c, Tx(refs, [a], [b, d]), token);
  }
}
