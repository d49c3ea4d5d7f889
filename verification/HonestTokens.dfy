/** All three scripts on transactions built as the client builds them: swaps, deposits and withdrawals. */
module HonestTokens {
  import opened Numbers
  import opened Transaction
  import opened PoolRuns
  import opened PoolRules
  import opened TokenRules
  import opened LockRules
  import opened Client
  import opened HonestTransactions

  // ----- the token's script

  /** `token` is the pool's, and neither the pool's type nor an asset's. */
  predicate TokenOf(c: Consts, m: Market, token: Script) {
    && m.Valid(c) && TokenOfPool(c, token, m.pool, m.lock.hash)
    && token.hash != m.pool.hash && token.hash != Udt1(m.lock) && token.hash != Udt2(m.lock)
  }

  /** Where the token's hash is found, there is the token. */
  ghost predicate OnlyToken(cells: seq<Cell>, token: Script) {
    forall k :: 0 <= k < |cells| && HasType(cells[k], token.hash) ==> cells[k].typ == Some(token)
  }

  lemma NoTokenInPool(c: Consts, m: Market, token: Script, ex: Extras, p: Pool)
    requires TokenOf(c, m, token) && StateFits(m, p)
    ensures TypeGroup(PoolCells(m, ex, p), token.hash) == []
  {
    var cells := PoolCells(m, ex, p);
    assert forall k :: 0 <= k < 3 ==> !HasType(cells[k], token.hash);
    GroupEmpty(cells, token.hash);
  }

  /** The token's group is found among the user's cells. */
  lemma TokenGroups(c: Consts, m: Market, token: Script, fee: Script, a: Around, p: Pool, q: Pool)
    requires TokenOf(c, m, token) && StateFits(m, p) && StateFits(m, q)
    ensures var tx := UpdateTx(m, fee, a, p, q);
      && TypeGroup(tx.inputs, token.hash) == TypeGroup(a.userIn, token.hash)
      && TypeGroup(tx.outputs, token.hash) == TypeGroup(a.userOut, token.hash)
  {
    NoTokenInPool(c, m, token, a.before, p);
    NoTokenInPool(c, m, token, a.after, q);
    GroupAppend(PoolCells(m, a.before, p), a.userIn, token.hash);
    GroupAppend(PoolCells(m, a.after, q), [FeeCell(fee, a.feeData)], token.hash);
    GroupAppend(PoolCells(m, a.after, q) + [FeeCell(fee, a.feeData)], a.userOut, token.hash);
    assert [FeeCell(fee, a.feeData)][1..] == [];
  }

  lemma GroupScriptIs(tx: Tx, token: Script, userIn: seq<Cell>, userOut: seq<Cell>)
    requires TypeGroup(tx.inputs, token.hash) == TypeGroup(userIn, token.hash)
    requires TypeGroup(tx.outputs, token.hash) == TypeGroup(userOut, token.hash)
    requires OnlyToken(userIn, token) && OnlyToken(userOut, token)
    requires Carries(userIn, token.hash) || Carries(userOut, token.hash)
    ensures GroupScript(tx, token) == Some(token)
  {
    if Carries(userIn, token.hash) {
      GroupEmpty(userIn, token.hash);
      var j := GroupMember(userIn, token.hash, 0);
      GroupTyped(userIn, token.hash, 0);
    } else {
      NoGroup(userIn, token.hash);
      GroupEmpty(userOut, token.hash);
      var j := GroupMember(userOut, token.hash, 0);
      GroupTyped(userOut, token.hash, 0);
    }
  }

  /** What the token's script asks of the user's cells while liquidity goes from `before` to `after`. */
  predicate TokensBalance(token: Script, a: Around, before: U128, after: U128) {
    var groupIn := TypeGroup(a.userIn, token.hash);
    var groupOut := TypeGroup(a.userOut, token.hash);
    SumOk(groupIn) && SumOk(groupOut) && Balances(Total(groupIn), Total(groupOut), before, after)
  }

  /**
   * The token's script accepts such a transaction if and only if the user's token cells are proper, their sums fit,
   * and the sums balance against the recorded liquidity.
   */
  lemma TokenScriptAccepts(c: Consts, m: Market, token: Script, fee: Script, a: Around, p: Pool, q: Pool)
    requires TokenOf(c, m, token) && StateFits(m, p) && StateFits(m, q)
    requires OnlyToken(a.userIn, token) && OnlyToken(a.userOut, token)
    requires Carries(a.userIn, token.hash) || Carries(a.userOut, token.hash)
    ensures TokenAccepts(c, UpdateTx(m, fee, a, p, q), token) == TokensBalance(token, a, p.liquidity, q.liquidity)
  {
    var tx := UpdateTx(m, fee, a, p, q);
    TokenGroups(c, m, token, fee, a, p, q);
    GroupScriptIs(tx, token, a.userIn, a.userOut);
    UpdateTxCells(m, fee, a, p, q);
    PoolDataReadsBack(p);
    PoolDataReadsBack(q);
    OwnerCellsAre(c, m, token, tx);
  }

  lemma OwnerCellsAre(c: Consts, m: Market, token: Script, tx: Tx)
    requires TokenOf(c, m, token) && tx.inputs != [] && tx.outputs != []
    requires tx.inputs[0].lock == m.lock && tx.inputs[0].typ == Some(m.pool)
    requires |tx.inputs[0].data| == UDTSWAP_DATA_SIZE == |tx.outputs[0].data|
    ensures OwnerMode(tx, token) && OwnerCellsOk(c, tx, Some(token))
  {
    assert token.args[..SCRIPT_HASH_SIZE] == m.lock.hash && token.args[SCRIPT_HASH_SIZE..] == m.pool.args;
  }

  // ----- the lock's script

  /** The pool's lock opens for the pool's own cells, in the first turn, if no cell of the user is under it. */
  lemma LockScriptAccepts(c: Consts, m: Market, fee: Script, a: Around, p: Pool, q: Pool, turns: nat)
    requires m.Valid(c) && StateFits(m, p) && StateFits(m, q) && turns > 0
    requires forall k :: 0 <= k < |a.userIn| ==> a.userIn[k].lock.hash != m.lock.hash
    ensures UnlockedWithin(c, UpdateTx(m, fee, a, p, q).inputs, m.lock.hash, turns)
  {
    var cells, inputs, hash := PoolCells(m, a.before, p), UpdateTx(m, fee, a, p, q).inputs, m.lock.hash;
    UpdateTxCells(m, fee, a, p, q);
    NoneUnder(a.userIn, hash);
    LockGroupAppend(cells, a.userIn, hash);
    AllUnder(cells, hash);
    assert GuardedTriple(c, inputs, hash, 3 * 0);
    assert Guarded(c, inputs, hash, 1) == 1;
    GuardedMono(c, inputs, hash, 1, turns);
  }

  // ----- from quote to chain

  /** Pool and lock accept; for the token see `TokenScriptAccepts`. */
  predicate GoesThrough(c: Consts, m: Market, fee: Script, a: Around, p: Pool, q: Pool, turns: nat)
    requires m.Valid(c) && StateFits(m, p) && StateFits(m, q)
  {
    && UpdateOk(c, UpdateTx(m, fee, a, p, q), m.pool)
    && UnlockedWithin(c, UpdateTx(m, fee, a, p, q).inputs, m.lock.hash, turns)
  }

  /** What a builder of such a transaction sees to: the fee's lock, and user cells that are not the pool's. */
  ghost predicate WellBuilt(c: Consts, m: Market, fee: Script, a: Around) {
    && m.Valid(c) && fee.hash == c.feeLock && a.Apart(m.pool.hash)
    && forall k :: 0 <= k < |a.userIn| ==> a.userIn[k].lock.hash != m.lock.hash
  }

  function NetOf(m: Market, p: Pool): Pool
    requires |m.lock.args| == LOCK_ARGS_SIZE
    requires p.r1 >= Default(Udt1(m.lock)) && p.r2 >= Default(Udt2(m.lock))
  {
    Net(Default(Udt1(m.lock)), Default(Udt2(m.lock)), p)
  }

  /** A pool that has been funded, in range. */
  predicate Open(m: Market, p: Pool)
    requires |m.lock.args| == LOCK_ARGS_SIZE
  {
    && StateFits(m, p)
    && p.r1 > Default(Udt1(m.lock)) && p.r2 > Default(Udt2(m.lock)) && p.liquidity > 0
  }

  /** A transaction that keeps liquidity goes through exactly if it is a swap above the default reserves. */
  lemma SwapGoesThrough(c: Consts, m: Market, fee: Script, a: Around, p: Pool, q: Pool, turns: nat)
    requires WellBuilt(c, m, fee, a) && StateFits(m, p) && StateFits(m, q) && p.liquidity == q.liquidity && turns > 0
    ensures GoesThrough(c, m, fee, a, p, q, turns) == SwapsAbove(Default(Udt1(m.lock)), Default(Udt2(m.lock)), p, q)
  {
    SwapTxAccepted(c, m, fee, a, p, q);
    LockScriptAccepts(c, m, fee, a, p, q, turns);
  }

  /** The swap of the first asset that the client quotes goes through when built into a transaction. */
  lemma QuotedSwapGoesThrough(
    c: Consts, m: Market, fee: Script, a: Around, p: Pool, input: nat, quote: nat, turns: nat)
    requires WellBuilt(c, m, fee, a) && Open(m, p) && input > 0 && quote > 0 && turns > 0
    requires CalculateSwapOutputFromInput(NetOf(m, p).r1, NetOf(m, p).r2, input) == Quoted(quote)
    requires Representable(Udt1(m.lock), p.r1 + input)
    ensures quote < p.r2 && StateFits(m, p.(r1 := p.r1 + input, r2 := p.r2 - quote))
    ensures GoesThrough(c, m, fee, a, p, p.(r1 := p.r1 + input, r2 := p.r2 - quote), turns)
  {
    QuotedSwapSwaps(Default(Udt1(m.lock)), Default(Udt2(m.lock)), p, input, quote);
    var q := p.(r1 := p.r1 + input, r2 := p.r2 - quote);
    SwapGoesThrough(c, m, fee, a, p, q, turns);
  }

  /** And so does that of the second asset. */
  lemma QuotedReverseSwapGoesThrough(
    c: Consts, m: Market, fee: Script, a: Around, p: Pool, input: nat, quote: nat, turns: nat)
    requires WellBuilt(c, m, fee, a) && Open(m, p) && input > 0 && quote > 0 && turns > 0
    requires CalculateSwapOutputFromInput(NetOf(m, p).r2, NetOf(m, p).r1, input) == Quoted(quote)
    requires Representable(Udt2(m.lock), p.r2 + input)
    ensures quote < p.r1 && StateFits(m, p.(r1 := p.r1 - quote, r2 := p.r2 + input))
    ensures GoesThrough(c, m, fee, a, p, p.(r1 := p.r1 - quote, r2 := p.r2 + input), turns)
  {
    QuotedSwapSwapsBack(Default(Udt1(m.lock)), Default(Udt2(m.lock)), p, input, quote);
    var q := p.(r1 := p.r1 - quote, r2 := p.r2 + input);
    SwapGoesThrough(c, m, fee, a, p, q, turns);
  }

  /** The user's token cells are proper, and only they have the token's hash. */
  ghost predicate TokensProper(token: Script, a: Around) {
    && OnlyToken(a.userIn, token) && OnlyToken(a.userOut, token)
    && SumOk(TypeGroup(a.userIn, token.hash)) && SumOk(TypeGroup(a.userOut, token.hash))
  }

  function TokensIn(token: Script, a: Around): nat {
    Total(TypeGroup(a.userIn, token.hash))
  }

  function TokensOut(token: Script, a: Around): nat {
    Total(TypeGroup(a.userOut, token.hash))
  }

  /** Tokens that move exactly as the liquidity does are accepted. */
  lemma ExactTokens(c: Consts, m: Market, token: Script, fee: Script, a: Around, p: Pool, q: Pool)
    requires TokenOf(c, m, token) && StateFits(m, p) && StateFits(m, q) && TokensProper(token, a)
    requires Carries(a.userIn, token.hash) || Carries(a.userOut, token.hash)
    requires TokensIn(token, a) + q.liquidity == TokensOut(token, a) + p.liquidity
    ensures TokenAccepts(c, UpdateTx(m, fee, a, p, q), token)
  {
    TokenScriptAccepts(c, m, token, fee, a, p, q);
    ExactBalances(TokensIn(token, a), TokensOut(token, a), p.liquidity, q.liquidity);
  }

  lemma ExactBalances(input: U128, output: U128, before: U128, after: U128)
    requires input + after == output + before
    ensures Balances(input, output, before, after)
  {
    BalancesIsCongruence(input, output, before, after);
  }

  lemma QuotedDepositAdds(d1: nat, d2: nat, p: Pool, amount1: nat, amount2: nat, minted: nat)
    requires p.r1 > d1 && p.r2 > d2 && p.liquidity > 0 && amount1 >= ADD_LIQUIDITY_MINIMUM && minted > 0
    requires CalculateAddLiquidity(Net(d1, d2, p), amount1) == Quoted((amount2, minted))
    ensures AddsAbove(d1, d2, p, Pool(p.r1 + amount1, p.r2 + amount2, p.liquidity + minted))
  {
    var net, q := Net(d1, d2, p), Pool(p.r1 + amount1, p.r2 + amount2, p.liquidity + minted);
    QuotedDepositIsAccepted(net, amount1);
    assert Net(d1, d2, q) == Pool(net.r1 + amount1, net.r2 + amount2, net.liquidity + minted);
  }

  lemma QuotedWithdrawalRemoves(d1: nat, d2: nat, p: Pool, amount1: nat, amount2: nat, burned: nat)
    requires p.r1 > d1 && p.r2 > d2 && 0 < burned < p.liquidity && amount1 > 0 && amount2 > 0
    requires CalculateRemoveLiquidity(Net(d1, d2, p), burned) == Quoted((amount1, amount2))
    ensures amount1 < p.r1 && amount2 < p.r2
    ensures RemovesAbove(d1, d2, p, Pool(p.r1 - amount1, p.r2 - amount2, p.liquidity - burned))
  {
    var net := Net(d1, d2, p);
    QuotedWithdrawalIsAccepted(net, burned);
    var q := Pool(p.r1 - amount1, p.r2 - amount2, p.liquidity - burned);
    assert Net(d1, d2, q) == Pool(net.r1 - amount1, net.r2 - amount2, net.liquidity - burned);
  }

  lemma QuotedSwapSwaps(d1: nat, d2: nat, p: Pool, input: nat, quote: nat)
    requires p.r1 > d1 && p.r2 > d2 && p.liquidity > 0 && input > 0 && quote > 0
    ensures CalculateSwapOutputFromInput(p.r1 - d1, p.r2 - d2, input) == Quoted(quote) ==>
              quote < p.r2 && SwapsAbove(d1, d2, p, p.(r1 := p.r1 + input, r2 := p.r2 - quote))
  {
    var net := Net(d1, d2, p);
    QuotedSwapIsAccepted(net, input);
    if quote < net.r2 {
      var q := p.(r1 := p.r1 + input, r2 := p.r2 - quote);
      assert Net(d1, d2, q) == Pool(net.r1 + input, net.r2 - quote, net.liquidity);
    }
  }

  lemma QuotedSwapSwapsBack(d1: nat, d2: nat, p: Pool, input: nat, quote: nat)
    requires p.r1 > d1 && p.r2 > d2 && p.liquidity > 0 && input > 0 && quote > 0
    ensures CalculateSwapOutputFromInput(p.r2 - d2, p.r1 - d1, input) == Quoted(quote) ==>
              quote < p.r1 && SwapsAbove(d1, d2, p, p.(r1 := p.r1 - quote, r2 := p.r2 + input))
  {
    var net := Net(d1, d2, p);
    QuotedSwapIsAccepted(net, input);
    if quote < net.r1 {
      var q := p.(r1 := p.r1 - quote, r2 := p.r2 + input);
      assert Net(d1, d2, q) == Pool(net.r1 - quote, net.r2 + input, net.liquidity);
    }
  }

  /** The deposit that the client quotes goes through, with the quoted liquidity given out in tokens. */
  lemma QuotedDepositGoesThrough(
    c: Consts, m: Market, token: Script, fee: Script, a: Around, p: Pool, amount1: nat, amount2: nat, minted: nat, turns: nat)
    requires WellBuilt(c, m, fee, a) && Open(m, p) && TokenOf(c, m, token) && TokensProper(token, a) && turns > 0
    requires amount1 >= ADD_LIQUIDITY_MINIMUM && minted > 0
    requires CalculateAddLiquidity(NetOf(m, p), amount1) == Quoted((amount2, minted))
    requires StateFits(m, Pool(p.r1 + amount1, p.r2 + amount2, p.liquidity + minted))
    requires a.userOut != [] && a.userOut[0].typ == Some(token)
    requires TokensOut(token, a) == TokensIn(token, a) + minted
    ensures GoesThrough(c, m, fee, a, p, Pool(p.r1 + amount1, p.r2 + amount2, p.liquidity + minted), turns)
    ensures TokenAccepts(c, UpdateTx(m, fee, a, p, Pool(p.r1 + amount1, p.r2 + amount2, p.liquidity + minted)), token)
  {
    var q := Pool(p.r1 + amount1, p.r2 + amount2, p.liquidity + minted);
    QuotedDepositAdds(Default(Udt1(m.lock)), Default(Udt2(m.lock)), p, amount1, amount2, minted);
    DepositTxAccepted(c, m, fee, a, p, q);
    LockScriptAccepts(c, m, fee, a, p, q, turns);
    assert HasType(a.userOut[0], token.hash);
    ExactTokens(c, m, token, fee, a, p, q);
  }

  /** The withdrawal that the client quotes goes through, with the burned liquidity taken in tokens. */
  lemma QuotedWithdrawalGoesThrough(
    c: Consts, m: Market, token: Script, fee: Script, a: Around, p: Pool, amount1: nat, amount2: nat, burned: nat, turns: nat)
    requires WellBuilt(c, m, fee, a) && Open(m, p) && TokenOf(c, m, token) && TokensProper(token, a) && turns > 0
    requires 0 < burned < p.liquidity && amount1 > 0 && amount2 > 0
    requires CalculateRemoveLiquidity(NetOf(m, p), burned) == Quoted((amount1, amount2))
    requires a.userIn != [] && a.userIn[0].typ == Some(token)
    requires TokensIn(token, a) == TokensOut(token, a) + burned
    ensures amount1 < p.r1 && amount2 < p.r2 && StateFits(m, Pool(p.r1 - amount1, p.r2 - amount2, p.liquidity - burned))
    ensures GoesThrough(c, m, fee, a, p, Pool(p.r1 - amount1, p.r2 - amount2, p.liquidity - burned), turns)
    ensures TokenAccepts(c, UpdateTx(m, fee, a, p, Pool(p.r1 - amount1, p.r2 - amount2, p.liquidity - burned)), token)
  {
    QuotedWithdrawalRemoves(Default(Udt1(m.lock)), Default(Udt2(m.lock)), p, amount1, amount2, burned);
    var q := Pool(p.r1 - amount1, p.r2 - amount2, p.liquidity - burned);
    RemovalTxAccepted(c, m, fee, a, p, q);
    LockScriptAccepts(c, m, fee, a, p, q, turns);
    assert HasType(a.userIn[0], token.hash);
    ExactTokens(c, m, token, fee, a, p, q);
  }

  // ----- buying a given output, and the first deposit

  lemma BoughtOutputSwaps(d1: nat, d2: nat, p: Pool, output: nat, input: nat)
    requires p.r1 > d1 && p.r2 > d2 + output && p.liquidity > 0 && output > 0
    ensures input == (p.r1 - d1) * 1000 * output / ((p.r2 - d2 - output) * 997) + 1 ==>
              SwapsAbove(d1, d2, p, p.(r1 := p.r1 + input, r2 := p.r2 - output))
  {
    if input == (p.r1 - d1) * 1000 * output / ((p.r2 - d2 - output) * 997) + 1 {
      var net, q := Net(d1, d2, p), p.(r1 := p.r1 + input, r2 := p.r2 - output);
      ExactOutputIsAccepted(net, output, input);
      assert Net(d1, d2, q) == Pool(net.r1 + input, net.r2 - output, net.liquidity);
    }
  }

  lemma BoughtOutputSwapsBack(d1: nat, d2: nat, p: Pool, output: nat, input: nat)
    requires p.r1 > d1 + output && p.r2 > d2 && p.liquidity > 0 && output > 0
    ensures input == (p.r2 - d2) * 1000 * output / ((p.r1 - d1 - output) * 997) + 1 ==>
              SwapsAbove(d1, d2, p, p.(r1 := p.r1 - output, r2 := p.r2 + input))
  {
    if input == (p.r2 - d2) * 1000 * output / ((p.r1 - d1 - output) * 997) + 1 {
      var net, q := Net(d1, d2, p), p.(r1 := p.r1 - output, r2 := p.r2 + input);
      ExactOutputIsAcceptedBack(net, output, input);
      assert Net(d1, d2, q) == Pool(net.r1 - output, net.r2 + input, net.liquidity);
    }
  }

  /** Whoever wants a given output of the second asset gets it for its price in the first. */
  lemma BoughtOutputGoesThrough(
    c: Consts, m: Market, fee: Script, a: Around, p: Pool, output: nat, input: nat, turns: nat)
    requires WellBuilt(c, m, fee, a) && Open(m, p) && turns > 0
    requires 0 < output && p.r2 > Default(Udt2(m.lock)) + output && Representable(Udt1(m.lock), p.r1 + input)
    ensures StateFits(m, p.(r1 := p.r1 + input, r2 := p.r2 - output))
    ensures input == (p.r1 - Default(Udt1(m.lock))) * 1000 * output / ((p.r2 - Default(Udt2(m.lock)) - output) * 997) + 1 ==>
              GoesThrough(c, m, fee, a, p, p.(r1 := p.r1 + input, r2 := p.r2 - output), turns)
  {
    BoughtOutputSwaps(Default(Udt1(m.lock)), Default(Udt2(m.lock)), p, output, input);
    var q := p.(r1 := p.r1 + input, r2 := p.r2 - output);
    SwapGoesThrough(c, m, fee, a, p, q, turns);
  }

  /** And a given output of the first asset for its price in the second. */
  lemma BoughtOutputBackGoesThrough(
    c: Consts, m: Market, fee: Script, a: Around, p: Pool, output: nat, input: nat, turns: nat)
    requires WellBuilt(c, m, fee, a) && Open(m, p) && turns > 0
    requires 0 < output && p.r1 > Default(Udt1(m.lock)) + output && Representable(Udt2(m.lock), p.r2 + input)
    ensures StateFits(m, p.(r1 := p.r1 - output, r2 := p.r2 + input))
    ensures input == (p.r2 - Default(Udt2(m.lock))) * 1000 * output / ((p.r1 - Default(Udt1(m.lock)) - output) * 997) + 1 ==>
              GoesThrough(c, m, fee, a, p, p.(r1 := p.r1 - output, r2 := p.r2 + input), turns)
  {
    BoughtOutputSwapsBack(Default(Udt1(m.lock)), Default(Udt2(m.lock)), p, output, input);
    var q := p.(r1 := p.r1 - output, r2 := p.r2 + input);
    SwapGoesThrough(c, m, fee, a, p, q, turns);
  }

  lemma FirstDepositAdds(d1: nat, d2: nat, p: Pool, q: Pool)
    requires p.liquidity == 0 < q.liquidity && p.r1 >= d1 && p.r2 >= d2
    ensures AddsAbove(d1, d2, p, q)
       <==> p.r1 < q.r1 && p.r2 < q.r2 && q.r1 - d1 >= 1000 && q.liquidity == q.r1 - d1
  {
    if p.r1 < q.r1 && p.r2 < q.r2 {
      FirstDepositExactly(Net(d1, d2, p), Net(d1, d2, q));
    }
  }

  /**
   * The first deposit is accepted by the pool's script if and only if it raises both reserves, the first to 1000 or
   * more above its default, and the liquidity becomes what the first reserve is above its default.
   */
  lemma FirstDepositAccepted(c: Consts, m: Market, fee: Script, a: Around, p: Pool, q: Pool)
    requires m.Valid(c) && StateFits(m, p) && StateFits(m, q) && fee.hash == c.feeLock && a.Apart(m.pool.hash)
    requires p.liquidity == 0 < q.liquidity && p.r1 >= Default(Udt1(m.lock)) && p.r2 >= Default(Udt2(m.lock))
    ensures UpdateOk(c, UpdateTx(m, fee, a, p, q), m.pool)
         == (p.r1 < q.r1 && p.r2 < q.r2 && q.r1 - Default(Udt1(m.lock)) >= 1000
             && q.liquidity == q.r1 - Default(Udt1(m.lock)) && TokenFirst(c, m, a.userOut))
  {
    DepositTxAccepted(c, m, fee, a, p, q);
    FirstDepositAdds(Default(Udt1(m.lock)), Default(Udt2(m.lock)), p, q);
  }

  /** From a new pool: such a deposit goes through all three scripts, with as many tokens given out. */
  lemma FirstDepositGoesThrough(
    c: Consts, m: Market, token: Script, fee: Script, a: Around, amount1: nat, amount2: nat, turns: nat)
    requires WellBuilt(c, m, fee, a) && TokenOf(c, m, token) && TokensProper(token, a) && turns > 0
    requires amount1 >= 1000 && amount2 > 0
    requires StateFits(m, Pool(NewPool(m).r1 + amount1, NewPool(m).r2 + amount2, amount1))
    requires a.userOut != [] && a.userOut[0].typ == Some(token)
    requires TokensOut(token, a) == TokensIn(token, a) + amount1
    ensures GoesThrough(c, m, fee, a, NewPool(m), Pool(NewPool(m).r1 + amount1, NewPool(m).r2 + amount2, amount1), turns)
    ensures TokenAccepts(c, UpdateTx(m, fee, a, NewPool(m), Pool(NewPool(m).r1 + amount1, NewPool(m).r2 + amount2, amount1)), token)
  {
    var p, q := NewPool(m), Pool(NewPool(m).r1 + amount1, NewPool(m).r2 + amount2, amount1);
    FirstDepositAccepted(c, m, fee, a, p, q);
    LockScriptAccepts(c, m, fee, a, p, q, turns);
    assert HasType(a.userOut[0], token.hash);
    ExactTokens(c, m, token, fee, a, p, q);
  }
}
