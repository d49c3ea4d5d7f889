/** The result codes of `udtswap_common.h`. */
module ResultCodes {
  const CKB_SUCCESS: int := 0
  const INDEX_OUT_OF_BOUND_ERROR: int := 1
  const ITEM_MISSING_ERROR: int := 2
  const ERROR_ENCODING: int := -2

  const UDTSWAP_NOT_MATCH_ERROR: int := -70
  const ADD_LIQUIDITY_NOT_CORRECT_ERROR: int := -72
  const LIQUIDITY_NOT_CORRECT_ERROR: int := -73
  const REMOVE_LIQUIDITY_NOT_CORRECT_ERROR: int := -74
  const SWAP_NOT_CORRECT_ERROR: int := -76
  const DIVIDE_ZERO_ERROR: int := -77
  const SUBTRACT_ERROR: int := -78
  const SCRIPT_NOT_MATCH_ERROR: int := -79
  const RESERVE_BELOW_MINIMUM_ERROR: int := -80
  const LIQUIDITY_EMPTY_ERROR: int := -81
  const RESULT_NOT_CORRECT_ERROR: int := -82
  const UDTSWAP_DATA_SIZE_NOT_CORRECT_ERROR: int := -83
  const UDTSWAP_TYPE_SCRIPT_SIZE_NOT_CORRECT_ERROR: int := -84
  const UDTSWAP_LOCK_SCRIPT_SIZE_NOT_CORRECT_ERROR: int := -85
  const UDTSWAP_LIQUIDITY_UDT_DATA_SIZE_NOT_CORRECT_ERROR: int := -86
  const UDTSWAP_LIQUIDITY_UDT_TYPE_SCRIPT_SIZE_NOT_CORRECT_ERROR: int := -87
  const SCRIPT_HASH_SIZE_NOT_CORRECT_ERROR: int := -88
  const STATE_USE_FEE_NOT_CORRECT_ERROR: int := -90
  const INPUT_NOT_MATCH_ERROR: int := -92
  const STATE_USE_FEE_CELL_TYPE_SCRIPT_EXIST_ERROR: int := -93
  const CODE_HASH_NOT_MATCH_ERROR: int := -94
  const NOT_ENOUGH_GROUP_CELL_ERROR: int := -95
  const TOO_MANY_GROUP_CELL_ERROR: int := -96
  const UDTSWAP_TYPE_UDTSWAP_UDT_LOCK_AMOUNT_NOT_MATCH_ERROR: int := -98
  const ONLY_TYPE_SCRIPT_NOT_MATCH_ERROR: int := -99
  const TX_INPUT_NOT_MATCH_ERROR: int := -100
  const ADD_LIQUIDITY_TOO_LOW_ERROR: int := -101
  const SAME_UDT_OR_ORDER_ERROR: int := -102
  const CANNOT_UNLOCK_ERROR: int := -105
  const UDTSWAP_LIQUIDITY_UDT_ZERO_AMOUNT_ERROR: int := -106
  const OVERFLOW_ERROR: int := -107
  const UDTSWAP_LIQUIDITY_UDT_INPUT_OUTPUT_NOT_MATCH_ERROR: int := -108
  const UDTSWAP_SYSCALL_ERROR: int := -109

  const UDTSWAP_LIQUIDITY_UDT_ERROR_IDX: int := 50
  const UDTSWAP_LOCK_ERROR_IDX: int := 100
}
