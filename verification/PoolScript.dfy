/** The pool's type script: the checks on one triple of cells, on a new pool and on the fee. */
module PoolScript {
  import opened Numbers
  import opened ByteOrder
  import opened MoleculeReader
  import opened ScriptLayout
  import opened ResultCodes
  import opened Transaction
  import opened Syscalls
  import opened PoolRuns
  import opened PoolRules

  method CheckScriptHash(compare: Hash, cells: seq<Cell>, index: nat, field: Field) returns (ret: int)
    requires field == LOCK_HASH || field == TYPE_HASH
    ensures ret == CKB_SUCCESS <==> LoadField(cells, index, field) == Loaded(compare)
    ensures ret != ONLY_TYPE_SCRIPT_NOT_MATCH_ERROR
  {
    var load := LoadField(cells, index, field);
    if load.Code() != CKB_SUCCESS {
      return UDTSWAP_SYSCALL_ERROR - load.Code();
    }
    if |load.bytes| != SCRIPT_HASH_SIZE {
      return SCRIPT_HASH_SIZE_NOT_CORRECT_ERROR;
    }
    if compare != load.bytes {
      return SCRIPT_NOT_MATCH_ERROR;
    }
    return CKB_SUCCESS;
  }

  method CheckLocks(c: Consts, tx: Tx, index: nat) returns (ret: int)
    ensures ret == CKB_SUCCESS <==> LocksOk(c, tx, index)
    ensures ret != ONLY_TYPE_SCRIPT_NOT_MATCH_ERROR
  {
    var load := LoadField(tx.inputs, index, LOCK);
    if load.Code() != CKB_SUCCESS {
      return UDTSWAP_SYSCALL_ERROR - load.Code();
    }
    SerializedFields(tx.inputs[index].lock);
    if |load.bytes| != UDTSWAP_LOCK_SCRIPT_SIZE {
      return UDTSWAP_LOCK_SCRIPT_SIZE_NOT_CORRECT_ERROR;
    }
    if load.bytes[CODE_HASH_START..HASH_TYPE_START] != c.lockCode {
      return CODE_HASH_NOT_MATCH_ERROR;
    }
    var current := tx.inputs[index].lock.hash;
    ret := CheckScriptHash(current, tx.inputs, index + 1, LOCK_HASH);
    if ret != CKB_SUCCESS {
      return;
    }
    ret := CheckScriptHash(current, tx.inputs, index + 2, LOCK_HASH);
    if ret != CKB_SUCCESS {
      return;
    }
    ret := CheckScriptHash(current, tx.outputs, index, LOCK_HASH);
    if ret != CKB_SUCCESS {
      return;
    }
    ret := CheckScriptHash(current, tx.outputs, index + 1, LOCK_HASH);
    if ret != CKB_SUCCESS {
      return;
    }
    ret := CheckScriptHash(current, tx.outputs, index + 2, LOCK_HASH);
  }

  method LoadPoolData(cells: seq<Cell>, index: nat) returns (ret: int, data: seq<byte>)
    ensures ret == CKB_SUCCESS <==> index < |cells| && |cells[index].data| == UDTSWAP_DATA_SIZE
    ensures ret == CKB_SUCCESS ==> data == cells[index].data
    ensures ret != ONLY_TYPE_SCRIPT_NOT_MATCH_ERROR
  {
    data := [];
    var load := LoadField(cells, index, DATA);
    if load.Code() != CKB_SUCCESS {
      return UDTSWAP_SYSCALL_ERROR - load.Code(), data;
    }
    if |load.bytes| != UDTSWAP_DATA_SIZE {
      return UDTSWAP_DATA_SIZE_NOT_CORRECT_ERROR, data;
    }
    return CKB_SUCCESS, load.bytes;
  }

  /** Asks a cell to be of the asset: no type at all for CKB. */
  method CheckAsset(udt: Hash, isCkb: bool, cells: seq<Cell>, index: nat) returns (ret: int)
    requires isCkb == (udt == CKB_HASH)
    ensures ret == CKB_SUCCESS <==> index < |cells| && OfAsset(udt, cells[index])
    ensures ret != ONLY_TYPE_SCRIPT_NOT_MATCH_ERROR
  {
    if isCkb {
      var load := LoadField(cells, index, TYPE_HASH);
      if load.Code() != ITEM_MISSING_ERROR {
        return SCRIPT_NOT_MATCH_ERROR;
      }
      ret := CKB_SUCCESS;
    } else {
      ret := CheckScriptHash(udt, cells, index, TYPE_HASH);
    }
  }

  method CheckAssets(udt: Hash, isCkb: bool, tx: Tx, index: nat) returns (ret: int)
    requires isCkb == (udt == CKB_HASH)
    ensures ret == CKB_SUCCESS <==> AssetsOk(tx, index, udt)
    ensures ret != ONLY_TYPE_SCRIPT_NOT_MATCH_ERROR
  {
    ret := CheckAsset(udt, isCkb, tx.inputs, index);
    if ret != CKB_SUCCESS {
      return;
    }
    ret := CheckAsset(udt, isCkb, tx.outputs, index);
  }

  lemma CapacityBytes(capacity: U64)
    ensures LeVal(ToLe(capacity, 8)) == capacity
  {
    AmountRange();
    LeOfToLe(capacity, 8);
  }

  /** Compares a recorded reserve with what the cell locks. */
  method CheckAmount(buf: Buffer, isCkb: bool, ghost udt: Hash, cells: seq<Cell>, index: nat, recorded: nat)
    returns (ret: int)
    requires isCkb == (udt == CKB_HASH)
    ensures ret == CKB_SUCCESS <==> index < |cells| && recorded == Locked(buf, udt, cells[index])
    ensures ret != ONLY_TYPE_SCRIPT_NOT_MATCH_ERROR
  {
    var amount: nat;
    if isCkb {
      var load := LoadField(cells, index, CAPACITY);
      if load.Code() != CKB_SUCCESS {
        return UDTSWAP_SYSCALL_ERROR - load.Code();
      }
      CapacityBytes(cells[index].capacity);
      amount := LeVal(load.bytes);
    } else {
      var load := LoadField(cells, index, DATA);
      if load.Code() != CKB_SUCCESS {
        return UDTSWAP_SYSCALL_ERROR - load.Code();
      }
      amount := GetUint128(0, LoadInto(buf, load.bytes, UDT_AMOUNT_SIZE));
    }
    if recorded != amount {
      return UDTSWAP_TYPE_UDTSWAP_UDT_LOCK_AMOUNT_NOT_MATCH_ERROR;
    }
    return CKB_SUCCESS;
  }

  method CheckAmounts(bufIn: Buffer, bufOut: Buffer, isCkb: bool, ghost udt: Hash, tx: Tx, index: nat,
                      before: nat, after: nat)
    returns (ret: int)
    requires isCkb == (udt == CKB_HASH)
    ensures ret == CKB_SUCCESS <==> AmountsOk(bufIn, bufOut, tx, index, udt, before, after)
    ensures ret != ONLY_TYPE_SCRIPT_NOT_MATCH_ERROR
  {
    ret := CheckAmount(bufIn, isCkb, udt, tx.inputs, index, before);
    if ret != CKB_SUCCESS {
      return;
    }
    ret := CheckAmount(bufOut, isCkb, udt, tx.outputs, index, after);
  }

  method CheckHead(c: Consts, tx: Tx, index: nat) returns (ret: int)
    requires Present(tx, index)
    ensures ret == CKB_SUCCESS <==> HeadOk(c, tx, index)
    ensures ret != ONLY_TYPE_SCRIPT_NOT_MATCH_ERROR
  {
    var load := LoadField(tx.outputs, index, TYPE);
    if load.Code() != CKB_SUCCESS {
      return UDTSWAP_SYSCALL_ERROR - load.Code();
    }
    SerializedFields(tx.outputs[index].typ.value);
    if |load.bytes| != UDTSWAP_TYPE_SCRIPT_SIZE {
      return UDTSWAP_TYPE_SCRIPT_SIZE_NOT_CORRECT_ERROR;
    }
    if load.bytes[CODE_HASH_START..HASH_TYPE_START] != c.poolCode {
      return CODE_HASH_NOT_MATCH_ERROR;
    }
    var hash1 := LoadField(tx.inputs, index, TYPE_HASH);
    if hash1.Code() != CKB_SUCCESS {
      return UDTSWAP_SYSCALL_ERROR - hash1.Code();
    }
    var hash2 := LoadField(tx.outputs, index, TYPE_HASH);
    if hash2.Code() != CKB_SUCCESS {
      return UDTSWAP_SYSCALL_ERROR - hash2.Code();
    }
    if hash1.bytes != hash2.bytes {
      return SCRIPT_NOT_MATCH_ERROR;
    }
    return CKB_SUCCESS;
  }

  /** `udtswap_default_check`: succeeds on the own pool's triple, and tells another pool's triple from a failure. */
  method DefaultCheck(c: Consts, tx: Tx, cur: Script, index: nat) returns (ret: int, r: Reading)
    ensures ret == CKB_SUCCESS <==> Matched(c, tx, cur, index)
    ensures ret == ONLY_TYPE_SCRIPT_NOT_MATCH_ERROR <==> TripleOk(c, tx, index) && !HasType(tx.inputs[index], cur.hash)
    ensures ret == CKB_SUCCESS ==> r == ReadingOf(c, tx, index)
  {
    r := Reading(false, false, Pool(0, 0, 0), Pool(0, 0, 0));
    ret := CheckLocks(c, tx, index);
    if ret != CKB_SUCCESS {
      return;
    }
    var script := LoadField(tx.inputs, index, LOCK).bytes;
    SerializedFields(tx.inputs[index].lock);
    AssetsInLock(tx.inputs[index].lock);
    var udt1: Hash := script[UDT1_SCRIPT_HASH_START..UDT2_SCRIPT_HASH_START];
    var udt2: Hash := script[UDT2_SCRIPT_HASH_START..];
    var dataIn, dataOut;
    ret, dataIn := LoadPoolData(tx.inputs, index);
    if ret != CKB_SUCCESS {
      return;
    }
    ret, dataOut := LoadPoolData(tx.outputs, index);
    if ret != CKB_SUCCESS {
      return;
    }
    var isCkb1, isCkb2 := udt1 == CKB_HASH, udt2 == CKB_HASH;
    ret := CheckAssets(udt1, isCkb1, tx, index + 1);
    if ret != CKB_SUCCESS {
      return;
    }
    ret := CheckAssets(udt2, isCkb2, tx, index + 2);
    if ret != CKB_SUCCESS {
      return;
    }
    var before, after := ReadReserves(dataIn, dataOut);
    ret := CheckAmounts(c.At(index).before1, c.At(index).after1, isCkb1, udt1, tx, index + 1, before.r1, after.r1);
    if ret != CKB_SUCCESS {
      return;
    }
    ret := CheckAmounts(c.At(index).before2, c.At(index).after2, isCkb2, udt2, tx, index + 2, before.r2, after.r2);
    if ret != CKB_SUCCESS {
      return;
    }
    ret := CheckHead(c, tx, index);
    if ret != CKB_SUCCESS {
      return;
    }
    r := Reading(isCkb1, isCkb2, before, after);
    if tx.inputs[index].typ.value.hash != cur.hash {
      ret := ONLY_TYPE_SCRIPT_NOT_MATCH_ERROR;
    }
  }

  lemma AssetsInLock(lock: Script)
    requires |lock.args| == LOCK_ARGS_SIZE
    ensures var b := Serialize(lock);
      |b| == UDTSWAP_LOCK_SCRIPT_SIZE
      && b[UDT1_SCRIPT_HASH_START..UDT2_SCRIPT_HASH_START] == Udt1(lock) && b[UDT2_SCRIPT_HASH_START..] == Udt2(lock)
  {
    SerializedFields(lock);
    var b := Serialize(lock);
    assert b[ARGS_START..][..32] == b[53..85];
    assert b[ARGS_START..][32..] == b[85..];
  }

  method ReadReserves(dataIn: seq<byte>, dataOut: seq<byte>) returns (before: Pool, after: Pool)
    requires |dataIn| == UDTSWAP_DATA_SIZE && |dataOut| == UDTSWAP_DATA_SIZE
    ensures before == Recorded(dataIn) && after == Recorded(dataOut)
  {
    before := ReadPool(dataIn);
    after := ReadPool(dataOut);
  }

  method ReadPool(data: seq<byte>) returns (p: Pool)
    requires |data| == UDTSWAP_DATA_SIZE
    ensures p == Recorded(data)
  {
    var r1 := GetUint128(UDT1_RESERVE_START, data);
    var r2 := GetUint128(UDT2_RESERVE_START, data);
    var liquidity := GetUint128(TOTAL_LIQUIDITY_START, data);
    p := Pool(r1, r2, liquidity);
  }

  method CheckFee(c: Consts, tx: Tx, index: nat, cnt: nat) returns (ret: int)
    ensures ret == CKB_SUCCESS <==> FeeOk(c, tx, index, cnt)
  {
    var load := LoadField(tx.outputs, index, LOCK_HASH);
    if load.Code() != CKB_SUCCESS {
      return UDTSWAP_SYSCALL_ERROR - load.Code();
    }
    if c.feeLock != load.bytes {
      return SCRIPT_NOT_MATCH_ERROR;
    }
    load := LoadField(tx.outputs, index, TYPE_HASH);
    if load.Code() != ITEM_MISSING_ERROR {
      return STATE_USE_FEE_CELL_TYPE_SCRIPT_EXIST_ERROR;
    }
    load := LoadField(tx.outputs, index, CAPACITY);
    if load.Code() != CKB_SUCCESS {
      return UDTSWAP_SYSCALL_ERROR - load.Code();
    }
    CapacityBytes(tx.outputs[index].capacity);
    var capacity := LeVal(load.bytes);
    var totalFee := STATE_USE_FEE * cnt;
    if capacity != totalFee {
      return STATE_USE_FEE_NOT_CORRECT_ERROR;
    }
    return CKB_SUCCESS;
  }

  lemma TokenArgs(token: Script)
    requires |token.args| == TOKEN_ARGS_SIZE
    ensures var b := Serialize(token);
      && |b| == UDTSWAP_LIQUIDITY_UDT_TYPE_SCRIPT_SIZE
      && token.args == b[ARGS_START..ARGS_TX_INPUT_START] + b[ARGS_TX_INPUT_START..]
  {
    SerializedFields(token);
    var b := Serialize(token);
    assert b[ARGS_START..] == b[ARGS_START..ARGS_TX_INPUT_START] + b[ARGS_TX_INPUT_START..];
  }

  lemma JoinedEqual(a: seq<byte>, b: seq<byte>, x: seq<byte>, y: seq<byte>)
    requires |a| == |x|
    ensures a + b == x + y <==> a == x && b == y
  {
    if a + b == x + y {
      assert a == (a + b)[..|a|] && x == (x + y)[..|x|];
      assert b == (a + b)[|a|..] && y == (x + y)[|x|..];
    }
  }

  method CheckLiquidityScript(c: Consts, tx: Tx, cells: seq<Cell>, index: nat) returns (ret: int)
    ensures ret == CKB_SUCCESS <==> LiquidityCellOk(c, tx, cells, index)
  {
    var load := LoadField(cells, index, TYPE);
    if load.Code() != CKB_SUCCESS {
      return UDTSWAP_SYSCALL_ERROR - load.Code();
    }
    ghost var token := cells[index].typ.value;
    SerializedFields(token);
    if |load.bytes| != UDTSWAP_LIQUIDITY_UDT_TYPE_SCRIPT_SIZE {
      return UDTSWAP_LIQUIDITY_UDT_TYPE_SCRIPT_SIZE_NOT_CORRECT_ERROR;
    }
    TokenArgs(token);
    if c.tokenCode != load.bytes[CODE_HASH_START..HASH_TYPE_START] {
      return CODE_HASH_NOT_MATCH_ERROR;
    }
    var load2 := LoadField(tx.inputs, 0, TYPE);
    if load2.Code() != CKB_SUCCESS {
      return UDTSWAP_SYSCALL_ERROR - load2.Code();
    }
    ghost var pool := tx.inputs[0].typ.value;
    SerializedFields(pool);
    if |load2.bytes| != UDTSWAP_TYPE_SCRIPT_SIZE {
      return UDTSWAP_TYPE_SCRIPT_SIZE_NOT_CORRECT_ERROR;
    }
    ghost var owner := tx.inputs[0].lock.hash;
    JoinedEqual(owner, pool.args, load.bytes[ARGS_START..ARGS_TX_INPUT_START], load.bytes[ARGS_TX_INPUT_START..]);
    if load.bytes[ARGS_TX_INPUT_START..] != load2.bytes[ARGS_START..] {
      return TX_INPUT_NOT_MATCH_ERROR;
    }
    var load3 := LoadField(tx.inputs, 0, LOCK_HASH);
    if load3.Code() != CKB_SUCCESS {
      return UDTSWAP_SYSCALL_ERROR - load3.Code();
    }
    if |load3.bytes| != SCRIPT_HASH_SIZE {
      return SCRIPT_HASH_SIZE_NOT_CORRECT_ERROR;
    }
    if load3.bytes != load.bytes[ARGS_START..ARGS_TX_INPUT_START] {
      return SCRIPT_NOT_MATCH_ERROR;
    }
    return CKB_SUCCESS;
  }

  /** The running script's args must be the first input, byte for byte. */
  method CheckTxInput(tx: Tx, cur: Script) returns (ret: int)
    ensures ret == CKB_SUCCESS <==> FirstInputOk(tx, cur)
  {
    if tx.refs == [] {
      return UDTSWAP_SYSCALL_ERROR - INDEX_OUT_OF_BOUND_ERROR;
    }
    var input := tx.refs[0];
    var script := Serialize(cur);
    SerializedFields(cur);
    if |script| > SCRIPT_SIZE {
      return UDTSWAP_TYPE_SCRIPT_SIZE_NOT_CORRECT_ERROR;
    }
    var args;
    ret, args := ReadArgs(script, cur);
    if ret != CKB_SUCCESS {
      return;
    }
    if |input| == |args| && args == input {
      return CKB_SUCCESS;
    }
    return INPUT_NOT_MATCH_ERROR;
  }

  /** Verifies the running script's bytes as a `Script` and takes the args out of them. */
  method ReadArgs(script: seq<byte>, ghost cur: Script) returns (ret: int, args: seq<byte>)
    requires script == Serialize(cur) && |script| <= SCRIPT_SIZE
    ensures ret == CKB_SUCCESS && args == cur.args
  {
    var segment := Seg(0, |script|);
    assert View(script, segment) == script;
    SerializedFields(cur);
    EncodedScriptIsAccepted(cur.codeHash, HASH_TYPE, cur.args);
    GettersAgree(script, segment);
    var errno := ScriptVerify(script, segment, false);
    if errno != MOL_OK {
      return ERROR_ENCODING, [];
    }
    var slice := DynvecSliceByIndex(script, segment, 2);
    var raw := FixvecSliceRawBytes(script, slice.seg);
    return CKB_SUCCESS, View(script, raw);
  }

  /** How the scripts count a group: by whether loading the type hash at an index succeeds. */
  lemma GroupLoads(cells: seq<Cell>, hash: Hash, k: nat)
    ensures var load := LoadField(TypeGroup(cells, hash), k, TYPE_HASH);
      load == if k < |TypeGroup(cells, hash)| then Loaded(hash) else OutOfBound
  {
    if k < |TypeGroup(cells, hash)| {
      GroupTyped(cells, hash, k);
    }
  }

  method CheckCreateGroup(tx: Tx, cur: Script) returns (ret: int)
    ensures ret == CKB_SUCCESS <==> CreateGroupOk(tx, cur)
  {
    var groupIn, groupOut := TypeGroup(tx.inputs, cur.hash), TypeGroup(tx.outputs, cur.hash);
    GroupLoads(tx.inputs, cur.hash, 0);
    GroupLoads(tx.outputs, cur.hash, 0);
    GroupLoads(tx.outputs, cur.hash, 1);
    if LoadField(groupIn, 0, TYPE_HASH).Code() != INDEX_OUT_OF_BOUND_ERROR {
      return TOO_MANY_GROUP_CELL_ERROR;
    }
    if LoadField(groupOut, 0, TYPE_HASH).Code() != CKB_SUCCESS {
      return NOT_ENOUGH_GROUP_CELL_ERROR;
    }
    if LoadField(groupOut, 1, TYPE_HASH).Code() != INDEX_OUT_OF_BOUND_ERROR {
      return TOO_MANY_GROUP_CELL_ERROR;
    }
    ret := CheckScriptHash(cur.hash, tx.outputs, 0, TYPE_HASH);
  }

  /** Creation's checks on locks, asset order and asset types. */
  method CheckNewLocks(c: Consts, tx: Tx) returns (ret: int, udt1: Hash, udt2: Hash)
    requires tx.outputs != []
    ensures ret == CKB_SUCCESS && 2 < |tx.outputs| && |tx.outputs[0].data| == UDTSWAP_DATA_SIZE <==> NewCellsOk(c, tx)
    ensures ret == CKB_SUCCESS ==> |tx.outputs| > 2 && |tx.outputs[0].lock.args| == LOCK_ARGS_SIZE
    ensures ret == CKB_SUCCESS ==> udt1 == Udt1(tx.outputs[0].lock) && udt2 == Udt2(tx.outputs[0].lock)
  {
    udt1, udt2 := CKB_HASH, CKB_HASH;
    var lock := tx.outputs[0].lock;
    var load := LoadField(tx.outputs, 0, LOCK);
    SerializedFields(lock);
    if |load.bytes| != UDTSWAP_LOCK_SCRIPT_SIZE {
      ret := UDTSWAP_LOCK_SCRIPT_SIZE_NOT_CORRECT_ERROR;
      return;
    }
    AssetsInLock(lock);
    if load.bytes[CODE_HASH_START..HASH_TYPE_START] != c.lockCode {
      ret := CODE_HASH_NOT_MATCH_ERROR;
      return;
    }
    udt1, udt2 := load.bytes[UDT1_SCRIPT_HASH_START..UDT2_SCRIPT_HASH_START], load.bytes[UDT2_SCRIPT_HASH_START..];
    if !Less(udt1, udt2) {
      ret := SAME_UDT_OR_ORDER_ERROR;
      return;
    }
    ret := CheckScriptHash(lock.hash, tx.outputs, 1, LOCK_HASH);
    if ret != CKB_SUCCESS {
      return;
    }
    ret := CheckScriptHash(lock.hash, tx.outputs, 2, LOCK_HASH);
    if ret != CKB_SUCCESS {
      return;
    }
    ret := CheckAsset(udt1, udt1 == CKB_HASH, tx.outputs, 1);
    if ret != CKB_SUCCESS {
      return;
    }
    ret := CheckAsset(udt2, udt2 == CKB_HASH, tx.outputs, 2);
  }

  /** How many bytes a load of `data` under `limit` writes behind a 16-byte buffer. */
  function SpillOf(data: seq<byte>, limit: nat): nat {
    var n := if |data| < limit then |data| else limit;
    if n > UDT_AMOUNT_SIZE then n - UDT_AMOUNT_SIZE else 0
  }

  /**
   * One amount of a new pool; `buf` and `len` carry over from one call to the next, and `spill` counts the bytes
   * written behind the buffer.
   */
  method LoadDeposit(isCkb: bool, ghost udt: Hash, cell: Cell, buf: Buffer, len: nat)
    returns (amount: U128, buf': Buffer, len': nat, spill: nat)
    requires isCkb == (udt == CKB_HASH)
    ensures amount == Deposited(udt, cell, buf, len)
    ensures buf' == if isCkb then buf else LoadInto(buf, cell.data, len)
    ensures len' == if isCkb then 8 else |cell.data|
    ensures spill == if isCkb then 0 else SpillOf(cell.data, len)
  {
    buf', spill := buf, 0;
    if isCkb {
      CapacityBytes(cell.capacity);
      len' := 8;
      amount := LeVal(ToLe(cell.capacity, 8));
    } else {
      buf' := LoadInto(buf, cell.data, len);
      spill := SpillOf(cell.data, len);
      len' := |cell.data|;
      amount := GetUint128(0, buf');
    }
  }

  /** Compares the amounts of a new pool with the defaults; writes behind the buffer exactly if the first asset spills. */
  method CheckNewAmounts(c: Consts, tx: Tx, udt1: Hash, udt2: Hash) returns (ret: int, spilled: nat)
    requires NewCellsOk(c, tx)
    requires udt1 == Udt1(tx.outputs[0].lock) && udt2 == Udt2(tx.outputs[0].lock)
    ensures ret == CKB_SUCCESS <==> NewAmountsOk(c, tx)
    ensures spilled > 0 <==> Spills(tx)
  {
    var p := ReadPool(tx.outputs[0].data);
    var isCkb1, isCkb2 := udt1 == CKB_HASH, udt2 == CKB_HASH;
    var amount1, buf1, len1, spill1 := LoadDeposit(isCkb1, udt1, tx.outputs[1], c.created, UDTSWAP_DATA_SIZE);
    var amount2, buf2, len2, spill2 := LoadDeposit(isCkb2, udt2, tx.outputs[2], buf1, len1);
    ret, spilled := CKB_SUCCESS, spill1 + spill2;
    if p.r1 != amount1 || p.r2 != amount2
       || amount1 != (if isCkb1 then CKB_RESERVE_DEFAULT else UDT_RESERVE_DEFAULT)
       || amount2 != (if isCkb2 then CKB_RESERVE_DEFAULT else UDT_RESERVE_DEFAULT)
       || p.liquidity != 0 {
      ret := RESULT_NOT_CORRECT_ERROR;
    }
  }

  method CreateCheck(c: Consts, tx: Tx, cur: Script) returns (ret: int, spilled: nat)
    ensures ret == CKB_SUCCESS <==> CreateOk(c, tx, cur)
    ensures ret == CKB_SUCCESS ==> (spilled > 0 <==> Spills(tx))
  {
    spilled := 0;
    ret := CheckTxInput(tx, cur);
    if ret != CKB_SUCCESS {
      return;
    }
    ret := CheckCreateGroup(tx, cur);
    if ret != CKB_SUCCESS {
      return;
    }
    var udt1, udt2, data;
    ret, udt1, udt2 := CheckNewLocks(c, tx);
    if ret != CKB_SUCCESS {
      return;
    }
    ret, data := LoadPoolData(tx.outputs, 0);
    if ret != CKB_SUCCESS {
      return;
    }
    ret, spilled := CheckNewAmounts(c, tx, udt1, udt2);
  }
}
