/** What the liquidity token's type script asks of a transaction. */
module TokenRules {
  import opened Numbers
  import opened ByteOrder
  import opened Transaction
  import opened PoolRules

  const UDTSWAP_LIQUIDITY_UDT_DATA_SIZE: nat := 16

  // ----- sums

  /** What a token cell holds. */
  function Held(cell: Cell): U128 {
    if |cell.data| == UDTSWAP_LIQUIDITY_UDT_DATA_SIZE then Amount(cell.data, 0) else 0
  }

  function Total(cells: seq<Cell>): nat {
    if cells == [] then 0 else Held(cells[0]) + Total(cells[1..])
  }

  lemma {:induction false} TotalAppend(a: seq<Cell>, b: seq<Cell>)
    ensures Total(a + b) == Total(a) + Total(b)
  {
    if a == [] {
      assert a + b == b;
    } else {
      TotalAppend(a[1..], b);
      assert (a + b)[1..] == a[1..] + b;
    }
  }

  /** Every cell holds a positive 16-byte amount. */
  predicate AllProper(cells: seq<Cell>) {
    forall k :: 0 <= k < |cells| ==> |cells[k].data| == UDTSWAP_LIQUIDITY_UDT_DATA_SIZE && Held(cells[k]) > 0
  }

  predicate SumOk(cells: seq<Cell>) {
    AllProper(cells) && Total(cells) < TWO128
  }

  lemma TotalOne(cell: Cell)
    ensures Total([cell]) == Held(cell)
  {
    assert [cell][1..] == [];
  }

  // ----- minting and burning

  /** The verdict on token sums, given the pool's total liquidity before and after, in 128-bit arithmetic. */
  predicate Balances(input: U128, output: U128, before: U128, after: U128) {
    if after > before then Sub128(Add128(input, after), before) == output
    else if after < before then input == Sub128(Add128(output, before), after)
    else input == output
  }

  /** All three verdicts say the same: tokens and liquidity move by the same amount, modulo 2^128. */
  lemma BalancesIsCongruence(input: U128, output: U128, before: U128, after: U128)
    ensures Balances(input, output, before, after) <==> (input + after - output - before) % TWO128 == 0
  {
    WrappedMove(input, output, after, before);
    WrappedMove(output, input, before, after);
  }

  lemma WrappedMove(from: U128, to: U128, plus: U128, minus: U128)
    ensures Sub128(Add128(from, plus), minus) == to <==> (from + plus - to - minus) % TWO128 == 0
    ensures (from + plus - to - minus) % TWO128 == 0 <==> (to + minus - from - plus) % TWO128 == 0
  {
  }

  /** A verdict in favour is exact if and only if the new amount fits: no wrapping up, none below zero. */
  lemma BalanceIsExact(input: U128, output: U128, before: U128, after: U128)
    requires Balances(input, output, before, after)
    ensures input + after == output + before <==> 0 <= input + after - before < TWO128
  {
    BalancesIsCongruence(input, output, before, after);
  }

  /** A burn by more than the input tokens balances only with an output that has wrapped around. */
  lemma UncoveredBurn(input: U128, output: U128, before: U128, after: U128)
    requires before > after && input < before - after
    ensures Balances(input, output, before, after) <==> output == input + TWO128 - (before - after)
  {
  }

  /** An instance: one token in, liquidity falling by two. */
  lemma UncoveredBurnExample()
    ensures Balances(1, TWO128 - 1, 3, 1) && 1 + 1 != (TWO128 - 1) + 3
  {
    UncoveredBurn(1, TWO128 - 1, 3, 1);
  }

  /** The script of the running token as the first cell of its group shows it. */
  function GroupScript(tx: Tx, cur: Script): Option<Script> {
    var groupIn := TypeGroup(tx.inputs, cur.hash);
    var groupOut := TypeGroup(tx.outputs, cur.hash);
    if groupIn != [] then groupIn[0].typ else if groupOut != [] then groupOut[0].typ else None
  }

  /** The pool at input 0 and output 0, whose liquidity the token follows. */
  predicate OwnerCellsOk(c: Consts, tx: Tx, token: Option<Script>) {
    && tx.inputs != [] && tx.outputs != [] && tx.inputs[0].typ.Some? && token.Some?
    && var pool := tx.inputs[0].typ.value;
    && |pool.args| == TX_INPUT_SIZE && pool.codeHash == c.poolCode
    && |token.value.args| == TOKEN_ARGS_SIZE && token.value.args[SCRIPT_HASH_SIZE..] == pool.args
    && |tx.inputs[0].data| == UDTSWAP_DATA_SIZE && |tx.outputs[0].data| == UDTSWAP_DATA_SIZE
  }

  predicate OwnerOk(c: Consts, tx: Tx, cur: Script, input: U128, output: U128) {
    && OwnerCellsOk(c, tx, GroupScript(tx, cur))
    && Balances(input, output, Recorded(tx.inputs[0].data).liquidity, Recorded(tx.outputs[0].data).liquidity)
  }

  // ----- the script

  /** The running token script is the owner's: input 0 is under the lock that its args name. */
  predicate OwnerMode(tx: Tx, cur: Script) {
    |cur.args| == TOKEN_ARGS_SIZE && tx.inputs != [] && tx.inputs[0].lock.hash == cur.args[..SCRIPT_HASH_SIZE]
  }

  /** The running token script accepts the transaction. */
  predicate TokenAccepts(c: Consts, tx: Tx, cur: Script) {
    var groupIn := TypeGroup(tx.inputs, cur.hash);
    var groupOut := TypeGroup(tx.outputs, cur.hash);
    && |cur.args| == TOKEN_ARGS_SIZE && tx.inputs != []
    && SumOk(groupIn) && SumOk(groupOut)
    && if OwnerMode(tx, cur) then OwnerOk(c, tx, cur, Total(groupIn), Total(groupOut))
       else Total(groupIn) == Total(groupOut)
  }
}
