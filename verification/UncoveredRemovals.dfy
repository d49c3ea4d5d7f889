/** Withdrawals that the token's inputs do not cover, and that are accepted all the same. */
module UncoveredRemovals {
  import opened Numbers
  import opened ByteOrder
  import opened Transaction
  import opened PoolMath
  import opened PoolRuns
  import opened PoolRules
  import opened TokenRules
  import opened Ledger
  import opened PoolLedger
  import opened ChainRuns
  import opened HonestTransactions
  import opened HonestTokens

  function TokenCell(token: Script, holder: Script, capacity: U64, amount: nat): Cell {
    Cell(capacity, holder, Some(token), ToLe(amount, 16))
  }

  lemma TokenCellHolds(token: Script, holder: Script, capacity: U64, amount: nat)
    requires amount < TWO128
    ensures TypeGroup([TokenCell(token, holder, capacity, amount)], token.hash) == [TokenCell(token, holder, capacity, amount)]
    ensures Total([TokenCell(token, holder, capacity, amount)]) == amount
    ensures SumOk([TokenCell(token, holder, capacity, amount)]) <==> amount > 0
  {
    var cell := TokenCell(token, holder, capacity, amount);
    assert [cell][1..] == [];
    assert cell.data[0..16] == cell.data;
    AmountAt(cell.data, 0, amount);
    TotalOne(cell);
  }

  /** The user has one token cell in front on each side, with `t` and `o` tokens, and none behind. */
  predicate OneTokenEach(token: Script, a: Around, t: nat, o: nat) {
    && a.userIn != [] && a.userOut != []
    && a.userIn[0] == TokenCell(token, a.userIn[0].lock, a.userIn[0].capacity, t)
    && a.userOut[0] == TokenCell(token, a.userOut[0].lock, a.userOut[0].capacity, o)
    && !Carries(a.userIn[1..], token.hash) && !Carries(a.userOut[1..], token.hash)
  }

  lemma FrontGroup(cells: seq<Cell>, token: Script, amount: nat)
    requires amount < TWO128 && cells != [] && !Carries(cells[1..], token.hash)
    requires cells[0] == TokenCell(token, cells[0].lock, cells[0].capacity, amount)
    ensures Total(TypeGroup(cells, token.hash)) == amount && (SumOk(TypeGroup(cells, token.hash)) <==> amount > 0)
    ensures OnlyToken(cells, token) && Carries(cells, token.hash)
  {
    NoGroup(cells[1..], token.hash);
    assert HasType(cells[0], token.hash);
    TokenCellHolds(token, cells[0].lock, cells[0].capacity, amount);
    assert TypeGroup(cells, token.hash) == [cells[0]];
    assert forall k :: 1 <= k < |cells| ==> cells[k] == cells[1..][k - 1];
  }

  /** Then the token's script asks for positive amounts that balance. */
  lemma OneTokenEachAccepted(c: Consts, m: Market, token: Script, fee: Script, a: Around, p: Pool, q: Pool, t: nat, o: nat)
    requires TokenOf(c, m, token) && StateFits(m, p) && StateFits(m, q)
    requires t < TWO128 && o < TWO128 && OneTokenEach(token, a, t, o)
    ensures TokenAccepts(c, UpdateTx(m, fee, a, p, q), token)
         == (t > 0 && o > 0 && Balances(t, o, p.liquidity, q.liquidity))
  {
    FrontGroup(a.userIn, token, t);
    FrontGroup(a.userOut, token, o);
    TokenScriptAccepts(c, m, token, fee, a, p, q);
  }

  /**
   * Acceptance does not make a withdrawal covered: one token in, and an output that has wrapped around 2^128, is
   * accepted by all three scripts for every valid withdrawal of two units or more.
   */
  lemma UncoveredRemovalAccepted(c: Consts, m: Market, token: Script, fee: Script, a: Around, p: Pool, q: Pool)
    requires WellBuilt(c, m, fee, a) && TokenOf(c, m, token) && StateFits(m, p) && StateFits(m, q)
    requires RemovesAbove(Default(Udt1(m.lock)), Default(Udt2(m.lock)), p, q) && p.liquidity - q.liquidity >= 2
    requires OneTokenEach(token, a, 1, 1 + TWO128 - (p.liquidity - q.liquidity))
    ensures GoesThrough(c, m, fee, a, p, q, 1)
    ensures TokenAccepts(c, UpdateTx(m, fee, a, p, q), token)
    ensures !BurnCovered(Family(m.pool, token, m.lock), UpdateTx(m, fee, a, p, q))
  {
    RemovalTxAccepted(c, m, fee, a, p, q);
    LockScriptAccepts(c, m, fee, a, p, q, 1);
    UncoveredBurn(1, 1 + TWO128 - (p.liquidity - q.liquidity), p.liquidity, q.liquidity);
    OneTokenEachAccepted(c, m, token, fee, a, p, q, 1, 1 + TWO128 - (p.liquidity - q.liquidity));
    FrontGroup(a.userIn, token, 1);
    TokenGroups(c, m, token, fee, a, p, q);
    TokensOfGroup(token.hash, UpdateTx(m, fee, a, p, q).inputs);
    PoolOfUpdate(c, m, token, fee, a, p, q);
  }

  lemma PoolOfUpdate(c: Consts, m: Market, token: Script, fee: Script, a: Around, p: Pool, q: Pool)
    requires m.Valid(c) && StateFits(m, p) && StateFits(m, q) && a.Apart(m.pool.hash)
    ensures var f, tx := Family(m.pool, token, m.lock), UpdateTx(m, fee, a, p, q);
      PoolIn(f, tx.inputs) == p && PoolIn(f, tx.outputs) == q
  {
    var f, tx := Family(m.pool, token, m.lock), UpdateTx(m, fee, a, p, q);
    UpdateTxCells(m, fee, a, p, q);
    assert forall k :: 3 <= k < |tx.inputs| ==> tx.inputs[k] == a.userIn[k - 3];
    assert forall k :: 4 <= k < |tx.outputs| ==> tx.outputs[k] == a.userOut[k - 4];
    PoolInOne(f, tx.inputs, 0);
    PoolInOne(f, tx.outputs, 0);
    PoolDataReadsBack(p);
    PoolDataReadsBack(q);
  }

  /** There are such withdrawals in every market: half of a pool of 2000 units on all sides. */
  lemma UncoveredRemovalExists(d1: nat, d2: nat)
    ensures RemovesAbove(d1, d2, Pool(d1 + 2000, d2 + 2000, 2000), Pool(d1 + 1000, d2 + 1000, 1000))
  {
    assert Payout(2000, 2000, 1000) == 1000;
  }
}
