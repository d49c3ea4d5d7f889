/** The liquidity token's type script: sums over its cells, and minting and burning beside its pool. */
module TokenScript {
  import opened Numbers
  import opened ByteOrder
  import opened ScriptLayout
  import opened ResultCodes
  import opened Transaction
  import opened Syscalls
  import opened PoolRules
  import opened PoolScript
  import opened TokenRules

  lemma TotalNext(cells: seq<Cell>, i: nat)
    requires i < |cells|
    ensures Total(cells[..i + 1]) == Total(cells[..i]) + Held(cells[i])
    ensures Total(cells) >= Total(cells[..i + 1])
  {
    var done, rest := cells[..i + 1], cells[i + 1..];
    assert done == cells[..i] + [cells[i]];
    TotalAppend(cells[..i], [cells[i]]);
    TotalOne(cells[i]);
    assert cells == done + rest;
    TotalAppend(done, rest);
  }

  /** Wrapped addition falls below an operand exactly when the sum does not fit. */
  lemma WrapShows(a: U128, b: U128)
    ensures Add128(a, b) < b <==> a + b >= TWO128
    ensures a + b < TWO128 ==> Add128(a, b) == a + b
  {
  }

  /** One of the summing loops: exact, and failing on a bad size, a zero amount or an overflow. */
  method SumAmounts(cells: seq<Cell>) returns (ret: int, total: U128)
    ensures ret == CKB_SUCCESS <==> SumOk(cells)
    ensures ret == CKB_SUCCESS ==> total == Total(cells)
  {
    total := 0;
    var i := 0;
    while true
      invariant i <= |cells| && AllProper(cells[..i]) && total == Total(cells[..i])
      decreases |cells| - i
    {
      var load := LoadField(cells, i, DATA);
      if load.Code() == INDEX_OUT_OF_BOUND_ERROR {
        assert cells[..i] == cells;
        return CKB_SUCCESS, total;
      }
      if load.Code() != CKB_SUCCESS {
        return UDTSWAP_SYSCALL_ERROR - UDTSWAP_LIQUIDITY_UDT_ERROR_IDX - load.Code(), total;
      }
      TotalNext(cells, i);
      if |load.bytes| != UDTSWAP_LIQUIDITY_UDT_DATA_SIZE {
        return UDTSWAP_LIQUIDITY_UDT_DATA_SIZE_NOT_CORRECT_ERROR - UDTSWAP_LIQUIDITY_UDT_ERROR_IDX, total;
      }
      var current: U128 := Amount(load.bytes, 0);
      WrapShows(total, current);
      total := Add128(total, current);
      if total < current {
        return OVERFLOW_ERROR - UDTSWAP_LIQUIDITY_UDT_ERROR_IDX, total;
      }
      if current == 0 {
        return UDTSWAP_LIQUIDITY_UDT_ZERO_AMOUNT_ERROR - UDTSWAP_LIQUIDITY_UDT_ERROR_IDX, total;
      }
      assert cells[..i + 1] == cells[..i] + [cells[i]];
      i := i + 1;
    }
  }

  method LoadTotalLiquidity(cells: seq<Cell>) returns (ret: int, liquidity: U128)
    ensures ret == CKB_SUCCESS <==> cells != [] && |cells[0].data| == UDTSWAP_DATA_SIZE
    ensures ret == CKB_SUCCESS ==> liquidity == Recorded(cells[0].data).liquidity
  {
    liquidity := 0;
    var load := LoadField(cells, 0, DATA);
    if load.Code() != CKB_SUCCESS {
      return UDTSWAP_SYSCALL_ERROR - UDTSWAP_LIQUIDITY_UDT_ERROR_IDX - load.Code(), liquidity;
    }
    if |load.bytes| != UDTSWAP_DATA_SIZE {
      return UDTSWAP_DATA_SIZE_NOT_CORRECT_ERROR - UDTSWAP_LIQUIDITY_UDT_ERROR_IDX, liquidity;
    }
    liquidity := GetUint128(TOTAL_LIQUIDITY_START, load.bytes);
    ret := CKB_SUCCESS;
  }

  /** The type script loaded from the running token's group: from its inputs, or else from its outputs. */
  method LoadGroupScript(tx: Tx, cur: Script) returns (ret: int, script: seq<byte>)
    ensures ret == CKB_SUCCESS <==> GroupScript(tx, cur).Some?
    ensures ret == CKB_SUCCESS ==> script == Serialize(GroupScript(tx, cur).value)
  {
    script := [];
    var groupIn, groupOut := TypeGroup(tx.inputs, cur.hash), TypeGroup(tx.outputs, cur.hash);
    if groupIn != [] {
      GroupTyped(tx.inputs, cur.hash, 0);
    } else if groupOut != [] {
      GroupTyped(tx.outputs, cur.hash, 0);
    }
    var load := LoadField(groupIn, 0, TYPE);
    if load.Code() == INDEX_OUT_OF_BOUND_ERROR {
      load := LoadField(groupOut, 0, TYPE);
      if load.Code() != CKB_SUCCESS {
        return UDTSWAP_SYSCALL_ERROR - UDTSWAP_LIQUIDITY_UDT_ERROR_IDX - load.Code(), script;
      }
    } else if load.Code() != CKB_SUCCESS {
      return UDTSWAP_SYSCALL_ERROR - UDTSWAP_LIQUIDITY_UDT_ERROR_IDX - load.Code(), script;
    }
    return CKB_SUCCESS, load.bytes;
  }

  /** Asks input 0 to be a pool whose first input is that of the running token. */
  method CheckOwnerCell(c: Consts, tx: Tx, cur: Script) returns (ret: int)
    ensures ret == CKB_SUCCESS ==> tx.inputs != []
    ensures ret == CKB_SUCCESS && tx.outputs != []
            && |tx.inputs[0].data| == UDTSWAP_DATA_SIZE && |tx.outputs[0].data| == UDTSWAP_DATA_SIZE
            <==> OwnerCellsOk(c, tx, GroupScript(tx, cur))
  {
    var load := LoadField(tx.inputs, 0, TYPE);
    if load.Code() != CKB_SUCCESS {
      return UDTSWAP_SYSCALL_ERROR - UDTSWAP_LIQUIDITY_UDT_ERROR_IDX - load.Code();
    }
    ghost var pool := tx.inputs[0].typ.value;
    SerializedFields(pool);
    if |load.bytes| != UDTSWAP_TYPE_SCRIPT_SIZE {
      return UDTSWAP_TYPE_SCRIPT_SIZE_NOT_CORRECT_ERROR - UDTSWAP_LIQUIDITY_UDT_ERROR_IDX;
    }
    if c.poolCode != load.bytes[CODE_HASH_START..HASH_TYPE_START] {
      return SCRIPT_NOT_MATCH_ERROR - UDTSWAP_LIQUIDITY_UDT_ERROR_IDX;
    }
    var script;
    ret, script := LoadGroupScript(tx, cur);
    if ret != CKB_SUCCESS {
      return;
    }
    ghost var token := GroupScript(tx, cur).value;
    SerializedFields(token);
    if |script| != UDTSWAP_LIQUIDITY_UDT_TYPE_SCRIPT_SIZE {
      return UDTSWAP_LIQUIDITY_UDT_TYPE_SCRIPT_SIZE_NOT_CORRECT_ERROR - UDTSWAP_LIQUIDITY_UDT_ERROR_IDX;
    }
    assert script[ARGS_START..][SCRIPT_HASH_SIZE..] == script[ARGS_TX_INPUT_START..];
    if load.bytes[ARGS_START..] != script[ARGS_TX_INPUT_START..] {
      return TX_INPUT_NOT_MATCH_ERROR - UDTSWAP_LIQUIDITY_UDT_ERROR_IDX;
    }
    return CKB_SUCCESS;
  }

  method CheckOwnerModeTransfer(c: Consts, tx: Tx, cur: Script, input: U128, output: U128) returns (ret: int)
    ensures ret == CKB_SUCCESS <==> OwnerOk(c, tx, cur, input, output)
  {
    ret := CheckOwnerCell(c, tx, cur);
    if ret != CKB_SUCCESS {
      return;
    }
    var before, after;
    ret, before := LoadTotalLiquidity(tx.inputs);
    if ret != CKB_SUCCESS {
      return;
    }
    ret, after := LoadTotalLiquidity(tx.outputs);
    if ret != CKB_SUCCESS {
      return;
    }
    ret := CheckBalance(input, output, before, after);
  }

  method CheckBalance(input: U128, output: U128, before: U128, after: U128) returns (ret: int)
    ensures ret == CKB_SUCCESS <==> Balances(input, output, before, after)
  {
    var failure := UDTSWAP_LIQUIDITY_UDT_INPUT_OUTPUT_NOT_MATCH_ERROR - UDTSWAP_LIQUIDITY_UDT_ERROR_IDX;
    if after > before {
      return if Sub128(Add128(input, after), before) == output then CKB_SUCCESS else failure;
    } else if after < before {
      return if input == Sub128(Add128(output, before), after) then CKB_SUCCESS else failure;
    } else {
      return if input == output then CKB_SUCCESS else failure;
    }
  }

  /** `main` up to the sums: the args, and whether the pool's owner lock is at input 0. */
  method CheckArgs(tx: Tx, cur: Script) returns (ret: int, ownerMode: bool)
    ensures ret == CKB_SUCCESS <==> |cur.args| == TOKEN_ARGS_SIZE && tx.inputs != []
    ensures ret == CKB_SUCCESS ==> ownerMode == OwnerMode(tx, cur)
  {
    ownerMode := false;
    var script, args := Serialize(cur), [];
    SerializedFields(cur);
    if |script| > SCRIPT_SIZE {
      ret := UDTSWAP_LIQUIDITY_UDT_TYPE_SCRIPT_SIZE_NOT_CORRECT_ERROR - UDTSWAP_LIQUIDITY_UDT_ERROR_IDX;
      return;
    }
    ret, args := ReadArgs(script, cur);
    if |args| != SCRIPT_HASH_SIZE + TX_INPUT_SIZE {
      ret := UDTSWAP_LIQUIDITY_UDT_TYPE_SCRIPT_SIZE_NOT_CORRECT_ERROR - UDTSWAP_LIQUIDITY_UDT_ERROR_IDX;
      return;
    }
    var load := LoadField(tx.inputs, 0, LOCK_HASH);
    if load.Code() != CKB_SUCCESS {
      ret := UDTSWAP_SYSCALL_ERROR - UDTSWAP_LIQUIDITY_UDT_ERROR_IDX - load.Code();
      return;
    }
    ownerMode := load.bytes == args[..SCRIPT_HASH_SIZE];
  }

  /** `main`: succeeds exactly on the transactions the predicate accepts. */
  method Run(c: Consts, tx: Tx, cur: Script) returns (ret: int)
    ensures (ret == CKB_SUCCESS) == TokenAccepts(c, tx, cur)
  {
    var ownerMode, inputAmount, outputAmount;
    ret, ownerMode := CheckArgs(tx, cur);
    if ret != CKB_SUCCESS {
      return;
    }
    ret, inputAmount := SumAmounts(TypeGroup(tx.inputs, cur.hash));
    if ret != CKB_SUCCESS {
      return;
    }
    ret, outputAmount := SumAmounts(TypeGroup(tx.outputs, cur.hash));
    if ret != CKB_SUCCESS {
      return;
    }
    if ownerMode {
      ret := CheckOwnerModeTransfer(c, tx, cur, inputAmount, outputAmount);
      return;
    }
    if inputAmount != outputAmount {
      return UDTSWAP_LIQUIDITY_UDT_INPUT_OUTPUT_NOT_MATCH_ERROR - UDTSWAP_LIQUIDITY_UDT_ERROR_IDX;
    }
    return CKB_SUCCESS;
  }
}
