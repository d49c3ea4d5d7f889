/** The pool's lock script: counting the cells it guards and matching them to triples. */
module LockScript {
  import opened ScriptLayout
  import opened ResultCodes
  import opened Transaction
  import opened Syscalls
  import opened PoolRules
  import opened LockRules

  method CheckUdtswapType(c: Consts, tx: Tx, index: nat, current: Hash) returns (ret: int)
    ensures ret == CKB_SUCCESS <==> GuardedTriple(c, tx.inputs, current, index)
    ensures ret <= 0
  {
    var load := LoadField(tx.inputs, index, TYPE);
    if load.Code() != CKB_SUCCESS {
      return UDTSWAP_SYSCALL_ERROR - UDTSWAP_LOCK_ERROR_IDX - load.Code();
    }
    SerializedFields(tx.inputs[index].typ.value);
    if |load.bytes| != UDTSWAP_TYPE_SCRIPT_SIZE {
      return UDTSWAP_TYPE_SCRIPT_SIZE_NOT_CORRECT_ERROR - UDTSWAP_LOCK_ERROR_IDX;
    }
    if load.bytes[CODE_HASH_START..HASH_TYPE_START] != c.poolCode {
      return SCRIPT_NOT_MATCH_ERROR - UDTSWAP_LOCK_ERROR_IDX;
    }
    var i := 0;
    while i < 3
      invariant i <= 3
      invariant i > 0 ==> Under(tx.inputs, index, current)
      invariant i > 1 ==> Under(tx.inputs, index + 1, current)
      invariant i > 2 ==> Under(tx.inputs, index + 2, current)
    {
      load := LoadField(tx.inputs, index + i, LOCK_HASH);
      if load.Code() != CKB_SUCCESS {
        return UDTSWAP_SYSCALL_ERROR - UDTSWAP_LOCK_ERROR_IDX - load.Code();
      }
      if |load.bytes| != SCRIPT_HASH_SIZE {
        return SCRIPT_HASH_SIZE_NOT_CORRECT_ERROR - UDTSWAP_LOCK_ERROR_IDX;
      }
      if current != load.bytes {
        return SCRIPT_NOT_MATCH_ERROR - UDTSWAP_LOCK_ERROR_IDX;
      }
      i := i + 1;
    }
    return CKB_SUCCESS;
  }

  /** The first part of `main`: a group of `3n` cells, `n > 0`, gives `n`; any other group is refused. */
  method CountGroup(tx: Tx, current: Hash) returns (ret: int, groupCnt: nat)
    ensures ret == CKB_SUCCESS <==>
            |LockGroup(tx.inputs, current)| > 0 && |LockGroup(tx.inputs, current)| % 3 == 0
    ensures ret == CKB_SUCCESS ==> 3 * groupCnt == |LockGroup(tx.inputs, current)| && groupCnt > 0
  {
    var group := LockGroup(tx.inputs, current);
    groupCnt := 1;
    var i: nat := 3;
    var load := LoadField(group, 3, LOCK_HASH);
    if load.Code() != INDEX_OUT_OF_BOUND_ERROR {
      if load.Code() == CKB_SUCCESS {
        i := 6;
        while true
          invariant i % 3 == 0 && 6 <= i && i - 3 < |group|
          decreases |group| + 3 - i
        {
          load := LoadField(group, i, LOCK_HASH);
          if load.Code() == INDEX_OUT_OF_BOUND_ERROR {
            break;
          }
          if load.Code() != CKB_SUCCESS {
            return UDTSWAP_SYSCALL_ERROR - UDTSWAP_LOCK_ERROR_IDX, groupCnt;
          }
          i := i + 3;
        }
        groupCnt := i / 3;
      } else {
        return TOO_MANY_GROUP_CELL_ERROR - UDTSWAP_LOCK_ERROR_IDX, groupCnt;
      }
    }
    load := LoadField(group, i - 1, LOCK_HASH);
    if load.Code() != CKB_SUCCESS {
      return NOT_ENOUGH_GROUP_CELL_ERROR - UDTSWAP_LOCK_ERROR_IDX, groupCnt;
    }
    return CKB_SUCCESS, groupCnt;
  }

  /** What is known of the matching loop after a number of turns. */
  datatype Outcome = Unlocked | Failed(code: int) | StillRunning

  /**
   * The matching loop, `turns` times round. No error code ends it, so it can only stop by having found as many
   * guarded triples as the group has thirds.
   */
  method MatchTriples(c: Consts, tx: Tx, current: Hash, groupCnt0: nat, turns: nat) returns (outcome: Outcome)
    requires groupCnt0 > 0
    ensures outcome == if Guarded(c, tx.inputs, current, turns) >= groupCnt0 then Unlocked else StillRunning
  {
    var groupCnt := groupCnt0;
    var i: nat := 0;
    for turn := 0 to turns
      invariant i == 3 * turn
      invariant groupCnt > 0 && groupCnt + Guarded(c, tx.inputs, current, turn) == groupCnt0
    {
      GuardedMono(c, tx.inputs, current, turn + 1, turns);
      var ret := CheckUdtswapType(c, tx, i, current);
      if ret == CKB_SUCCESS {
        groupCnt := groupCnt - 1;
        if groupCnt == 0 {
          return Unlocked;
        }
      }
      if ret == INDEX_OUT_OF_BOUND_ERROR {
        return Failed(CANNOT_UNLOCK_ERROR);
      }
      i := i + 3;
    }
    return StillRunning;
  }

  /** `main`, with the matching loop going round `turns` times. */
  method Run(c: Consts, tx: Tx, current: Hash, turns: nat) returns (outcome: Outcome)
    ensures outcome.Unlocked? == UnlockedWithin(c, tx.inputs, current, turns)
  {
    var ret, groupCnt := CountGroup(tx, current);
    if ret != CKB_SUCCESS {
      return Failed(ret);
    }
    outcome := MatchTriples(c, tx, current, groupCnt, turns);
  }
}
