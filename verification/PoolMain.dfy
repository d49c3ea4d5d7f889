/** The pool's type script as a whole: scanning the triples of a transaction. */
module PoolMain {
  import opened Numbers
  import opened ResultCodes
  import opened Transaction
  import opened Syscalls
  import opened PoolRuns
  import opened AmountChecks
  import opened PoolRules
  import opened PoolScript

  lemma SubIsExact(a: U128, b: U128)
    requires b <= a
    ensures Sub128(a, b) == a - b
  {
  }

  method CheckSwap(p: Pool, q: Pool) returns (ret: int)
    requires InRange(p) && InRange(q) && p.liquidity == q.liquidity && q.r1 > 0 && q.r2 > 0
    ensures ret == CKB_SUCCESS <==> SwapStep(p, q)
  {
    if p.r1 == 0 || p.r2 == 0 {
      return RESERVE_BELOW_MINIMUM_ERROR;
    }
    if p.liquidity == 0 {
      return LIQUIDITY_EMPTY_ERROR;
    }
    if p.r1 < q.r1 && p.r2 > q.r2 {
      SubIsExact(q.r1, p.r1);
      SubIsExact(p.r2, q.r2);
      ret := Swap(p.r1, p.r2, q.r1, q.r2);
    } else if p.r1 > q.r1 && p.r2 < q.r2 {
      SubIsExact(q.r2, p.r2);
      SubIsExact(p.r1, q.r1);
      ret := Swap(p.r2, p.r1, q.r2, q.r1);
    } else {
      return RESULT_NOT_CORRECT_ERROR;
    }
  }

  method CheckAddition(c: Consts, tx: Tx, p: Pool, q: Pool) returns (ret: int)
    requires InRange(p) && InRange(q) && p.liquidity < q.liquidity
    ensures ret == CKB_SUCCESS <==>
            (FirstDeposit(p, q) || AddStep(p, q)) && LiquidityCellOk(c, tx, tx.outputs, ADD_LIQUIDITY_CELL_INDEX)
  {
    if q.r1 <= p.r1 || q.r2 <= p.r2 {
      return RESULT_NOT_CORRECT_ERROR;
    }
    ret := CheckLiquidityScript(c, tx, tx.outputs, ADD_LIQUIDITY_CELL_INDEX);
    if ret != CKB_SUCCESS {
      return;
    }
    if p.liquidity == 0 {
      if q.r1 < ADD_LIQUIDITY_MINIMUM {
        return ADD_LIQUIDITY_TOO_LOW_ERROR;
      }
      if q.liquidity != q.r1 {
        return LIQUIDITY_NOT_CORRECT_ERROR;
      }
    } else {
      if q.r1 - p.r1 < ADD_LIQUIDITY_MINIMUM {
        return ADD_LIQUIDITY_TOO_LOW_ERROR;
      }
      SubIsExact(q.r1, p.r1);
      SubIsExact(q.r2, p.r2);
      SubIsExact(q.liquidity, p.liquidity);
      ret := AddLiquidity(p.r1, p.r2, q.r1, q.r2, p.liquidity, q.liquidity);
    }
  }

  method CheckRemoval(c: Consts, tx: Tx, p: Pool, q: Pool) returns (ret: int)
    requires InRange(p) && InRange(q) && q.liquidity < p.liquidity && q.r1 > 0 && q.r2 > 0
    ensures ret == CKB_SUCCESS <==>
            RemoveStep(p, q) && LiquidityCellOk(c, tx, tx.inputs, REMOVE_LIQUIDITY_CELL_START_INDEX)
  {
    if p.r1 == 0 || p.r2 == 0 {
      return RESERVE_BELOW_MINIMUM_ERROR;
    }
    if q.r1 >= p.r1 || q.r2 >= p.r2 {
      return RESULT_NOT_CORRECT_ERROR;
    }
    ret := CheckLiquidityScript(c, tx, tx.inputs, REMOVE_LIQUIDITY_CELL_START_INDEX);
    if ret != CKB_SUCCESS {
      return;
    }
    SubIsExact(p.r1, q.r1);
    SubIsExact(p.r2, q.r2);
    SubIsExact(p.liquidity, q.liquidity);
    ret := RemoveLiquidity(p.r1, p.r2, q.r1, q.r2, p.liquidity, q.liquidity);
  }

  /** What the scan does with the own pool's triple. */
  method CheckStep(c: Consts, tx: Tx, index: nat, r: Reading) returns (ret: int)
    requires InRange(r.before) && InRange(r.after)
    ensures ret == CKB_SUCCESS <==> ReadingStepOk(c, tx, index, r)
  {
    var default1, default2 := DefaultFor(r.isCkb1), DefaultFor(r.isCkb2);
    if r.before.r1 < default1 || r.after.r1 <= default1 || r.before.r2 < default2 || r.after.r2 <= default2 {
      return RESERVE_BELOW_MINIMUM_ERROR;
    }
    var p := r.before.(r1 := r.before.r1 - default1, r2 := r.before.r2 - default2);
    var q := r.after.(r1 := r.after.r1 - default1, r2 := r.after.r2 - default2);
    if p.liquidity == q.liquidity {
      ret := CheckSwap(p, q);
    } else if index != 0 {
      return UDTSWAP_NOT_MATCH_ERROR;
    } else if p.liquidity < q.liquidity {
      ret := CheckAddition(c, tx, p, q);
    } else {
      ret := CheckRemoval(c, tx, p, q);
    }
  }

  method CheckUpdateGroup(tx: Tx, cur: Script) returns (ret: int)
    ensures ret == CKB_SUCCESS <==> UpdateGroupOk(tx, cur)
  {
    var groupIn, groupOut := TypeGroup(tx.inputs, cur.hash), TypeGroup(tx.outputs, cur.hash);
    GroupLoads(tx.inputs, cur.hash, 0);
    GroupLoads(tx.inputs, cur.hash, 1);
    GroupLoads(tx.outputs, cur.hash, 0);
    GroupLoads(tx.outputs, cur.hash, 1);
    if LoadField(groupIn, 0, TYPE_HASH).Code() != CKB_SUCCESS {
      return NOT_ENOUGH_GROUP_CELL_ERROR;
    }
    if LoadField(groupIn, 1, TYPE_HASH).Code() != INDEX_OUT_OF_BOUND_ERROR {
      return TOO_MANY_GROUP_CELL_ERROR;
    }
    if LoadField(groupOut, 0, TYPE_HASH).Code() != CKB_SUCCESS {
      return NOT_ENOUGH_GROUP_CELL_ERROR;
    }
    if LoadField(groupOut, 1, TYPE_HASH).Code() != INDEX_OUT_OF_BOUND_ERROR {
      return TOO_MANY_GROUP_CELL_ERROR;
    }
    return CKB_SUCCESS;
  }

  /** The body of the scanning loop, on the triple at `i`. */
  method TakeTurn(c: Consts, tx: Tx, cur: Script, i: nat, ghost ts: seq<Triple>, ghost t: nat)
    returns (turn: Turn, ret: int)
    requires ts == Leading(c, tx, 0) && t <= |ts| && i == 3 * t
    ensures turn == TurnOf(ts, t, cur.hash)
    ensures turn == NoPool || turn == Invalid ==> ret != CKB_SUCCESS
    ensures t < |ts| ==> i < |tx.inputs|
  {
    LeadingAt(c, tx, 0, t, i);
    var r;
    ret, r := DefaultCheck(c, tx, cur, i);
    if ret == ONLY_TYPE_SCRIPT_NOT_MATCH_ERROR {
      return OtherPool, ret;
    }
    if ret != CKB_SUCCESS {
      return NoPool, ret;
    }
    ret := CheckStep(c, tx, i, r);
    if ret != CKB_SUCCESS {
      return Invalid, ret;
    }
    return if r.before.liquidity == r.after.liquidity then Swapped else LiquidityChanged, ret;
  }

  /** The scanning loop: `i` is the cell index at which it stops. */
  method ScanTriples(c: Consts, tx: Tx, cur: Script, ghost ts: seq<Triple>) returns (ret: int, i: nat)
    requires ts == Leading(c, tx, 0)
    ensures ret == CKB_SUCCESS <==> Scan(ts, cur.hash, 0, false).Some?
    ensures ret == CKB_SUCCESS ==> i == 3 * Scan(ts, cur.hash, 0, false).value
  {
    var isSuccess := false;
    i := 0;
    ghost var t: nat := 0;
    while true
      invariant i == 3 * t && t <= |ts|
      invariant Scan(ts, cur.hash, 0, false) == Scan(ts, cur.hash, t, isSuccess)
      decreases |tx.inputs| + 3 - i
    {
      var turn;
      turn, ret := TakeTurn(c, tx, cur, i, ts, t);
      match turn {
        case NoPool =>
          return if isSuccess then CKB_SUCCESS else ret, i;
        case OtherPool =>
        case Invalid =>
          return;
        case Swapped =>
          isSuccess := true;
        case LiquidityChanged =>
          return CKB_SUCCESS, i + 3;
      }
      i, t := i + 3, t + 1;
    }
  }

  /** `main`: terminates on every transaction, and succeeds exactly on those the predicate accepts. */
  method Run(c: Consts, tx: Tx, cur: Script) returns (ret: int)
    ensures (ret == CKB_SUCCESS) == Accepts(c, tx, cur)
  {
    var spilled;
    ret, spilled := CreateCheck(c, tx, cur);
    if ret == CKB_SUCCESS {
      return;
    }
    ret := CheckUpdateGroup(tx, cur);
    if ret != CKB_SUCCESS {
      return;
    }
    var i: nat;
    ret, i := ScanTriples(c, tx, cur, Leading(c, tx, 0));
    if ret != CKB_SUCCESS {
      return;
    }
    ret := CheckFee(c, tx, i, i / 3);
    assert i / 3 == Scan(Leading(c, tx, 0), cur.hash, 0, false).value;
  }
}
