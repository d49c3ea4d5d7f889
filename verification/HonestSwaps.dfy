/** Swaps of any number of pools in one transaction, built as the client builds them. */
module HonestSwaps {
  import opened Numbers
  import opened Transaction
  import opened PoolRuns
  import opened PoolRules
  import opened PoolAgreement
  import opened LockRules
  import opened HonestTransactions

  /** One pool's part in the transaction. */
  datatype Trade = Trade(m: Market, before: Extras, after: Extras, p: Pool, q: Pool) {
    predicate Valid(c: Consts) {
      m.Valid(c) && StateFits(m, p) && StateFits(m, q) && p.liquidity == q.liquidity
    }

    /** The trade is a swap above the pool's default reserves. */
    predicate Swaps()
      requires |m.lock.args| == LOCK_ARGS_SIZE
    {
      SwapsAbove(Default(Udt1(m.lock)), Default(Udt2(m.lock)), p, q)
    }
  }

  ghost predicate AllValid(c: Consts, ts: seq<Trade>) {
    forall j :: 0 <= j < |ts| ==> ts[j].Valid(c)
  }

  // Three cells standing together.
  type Three = s: seq<Cell> | |s| == 3 witness [NO_CELL, NO_CELL, NO_CELL]

  const NO_CELL: Cell := Cell(0, Script(CKB_HASH, [], CKB_HASH), None, [])

  function ThreesIn(c: Consts, ts: seq<Trade>): (threes: seq<Three>)
    requires AllValid(c, ts)
    ensures |threes| == |ts|
  {
    if ts == [] then [] else [PoolCells(ts[0].m, ts[0].before, ts[0].p)] + ThreesIn(c, ts[1..])
  }

  function ThreesOut(c: Consts, ts: seq<Trade>): (threes: seq<Three>)
    requires AllValid(c, ts)
    ensures |threes| == |ts|
  {
    if ts == [] then [] else [PoolCells(ts[0].m, ts[0].after, ts[0].q)] + ThreesOut(c, ts[1..])
  }

  function InRow(threes: seq<Three>): (cells: seq<Cell>)
    ensures |cells| == 3 * |threes|
  {
    if threes == [] then [] else threes[0] + InRow(threes[1..])
  }

  function CellsIn(c: Consts, ts: seq<Trade>): seq<Cell>
    requires AllValid(c, ts)
  {
    InRow(ThreesIn(c, ts))
  }

  function CellsOut(c: Consts, ts: seq<Trade>): seq<Cell>
    requires AllValid(c, ts)
  {
    InRow(ThreesOut(c, ts))
  }

  /** What stands beside the pools' cells: the fee's lock and data, the inputs' references, and the user's cells. */
  datatype Beside = Beside(fee: Script, feeData: seq<byte>, refs: seq<TxIn>, userIn: seq<Cell>, userOut: seq<Cell>) {
    function FeeCell(n: nat): Cell
      requires 6100000000 * n < TWO64
    {
      Cell(6100000000 * n, fee, None, feeData)
    }
  }

  /** The pools' triples in front, the fee for all of them behind, and the user's cells after that. */
  function SwapsTx(c: Consts, ts: seq<Trade>, b: Beside): Tx
    requires AllValid(c, ts) && 6100000000 * |ts| < TWO64
  {
    Tx(b.refs, CellsIn(c, ts) + b.userIn, CellsOut(c, ts) + [b.FeeCell(|ts|)] + b.userOut)
  }

  // ----- the triples

  lemma {:induction false} InRowAt(threes: seq<Three>, rest: seq<Cell>, j: nat, i: nat)
    requires j < |threes| && i == 3 * j
    ensures CellsAt(InRow(threes) + rest, i, threes[j])
  {
    var tail := InRow(threes[1..]) + rest;
    assert InRow(threes) + rest == threes[0] + tail;
    if j > 0 {
      InRowAt(threes[1..], rest, j - 1, i - 3);
      Shifted(threes[0], tail, i - 3, threes[j]);
    }
  }

  lemma Shifted(front: Three, tail: seq<Cell>, i: nat, three: Three)
    requires CellsAt(tail, i, three)
    ensures CellsAt(front + tail, i + 3, three)
  {
    assert (front + tail)[i + 3] == tail[i] && (front + tail)[i + 4] == tail[i + 1] && (front + tail)[i + 5] == tail[i + 2];
  }

  lemma {:induction false} ThreesAt(c: Consts, ts: seq<Trade>, j: nat)
    requires AllValid(c, ts) && j < |ts|
    ensures ThreesIn(c, ts)[j] == PoolCells(ts[j].m, ts[j].before, ts[j].p)
    ensures ThreesOut(c, ts)[j] == PoolCells(ts[j].m, ts[j].after, ts[j].q)
  {
    if j > 0 {
      ThreesAt(c, ts[1..], j - 1);
    }
  }

  lemma SwapsCellsAt(c: Consts, ts: seq<Trade>, b: Beside, j: nat, i: nat)
    requires AllValid(c, ts) && 6100000000 * |ts| < TWO64 && j < |ts| && i == 3 * j
    ensures var tx, t := SwapsTx(c, ts, b), ts[j];
      && CellsAt(tx.inputs, i, PoolCells(t.m, t.before, t.p)) && CellsAt(tx.outputs, i, PoolCells(t.m, t.after, t.q))
  {
    var tx, feeCell := SwapsTx(c, ts, b), [b.FeeCell(|ts|)];
    ThreesAt(c, ts, j);
    InRowAt(ThreesIn(c, ts), b.userIn, j, i);
    InRowAt(ThreesOut(c, ts), feeCell + b.userOut, j, i);
    assert tx.outputs == CellsOut(c, ts) + (feeCell + b.userOut);
  }

  lemma SwapsTriple(c: Consts, ts: seq<Trade>, b: Beside, j: nat, i: nat)
    requires AllValid(c, ts) && 6100000000 * |ts| < TWO64 && j < |ts| && i == 3 * j
    ensures var tx, t := SwapsTx(c, ts, b), ts[j];
      && TripleOk(c, tx, i) && ReadingOf(c, tx, i) == MarketReading(t.m, t.p, t.q)
      && TripleAt(c, tx, i).pool == t.m.pool.hash
  {
    SwapsCellsAt(c, ts, b, j, i);
    CellsMakeTriple(c, SwapsTx(c, ts, b), i, ts[j].m, ts[j].before, ts[j].after, ts[j].p, ts[j].q);
  }

  /** The fee cell stands behind the triples, and ends them. */
  lemma SwapsFee(c: Consts, ts: seq<Trade>, b: Beside, i: nat)
    requires AllValid(c, ts) && 6100000000 * |ts| < TWO64 && i == 3 * |ts|
    ensures var tx := SwapsTx(c, ts, b);
      && i < |tx.outputs| && tx.outputs[i] == b.FeeCell(|ts|)
      && !TripleOk(c, tx, i)
  {
  }

  /** There are as many leading triples as trades. */
  lemma SwapsLeading(c: Consts, ts: seq<Trade>, b: Beside)
    requires AllValid(c, ts) && 6100000000 * |ts| < TWO64
    ensures |Leading(c, SwapsTx(c, ts, b), 0)| == |ts|
  {
    var tx, n := SwapsTx(c, ts, b), |ts|;
    var l := |Leading(c, tx, 0)|;
    if l < n {
      LeadingAt(c, tx, 0, l, 3 * l);
      SwapsTriple(c, ts, b, l, 3 * l);
    } else if n < l {
      LeadingAt(c, tx, 0, n, 3 * n);
      SwapsFee(c, ts, b, 3 * n);
    }
  }

  lemma KeptSwaps(c: Consts, tx: Tx, i: nat, r: Reading)
    requires r.before.liquidity == r.after.liquidity
    ensures ReadingStepOk(c, tx, i, r) == SwapsAbove(DefaultFor(r.isCkb1), DefaultFor(r.isCkb2), r.before, r.after)
  {
  }

  lemma SwapsTripleIs(c: Consts, ts: seq<Trade>, b: Beside, j: nat)
    requires AllValid(c, ts) && 6100000000 * |ts| < TWO64 && j < |ts|
    requires |Leading(c, SwapsTx(c, ts, b), 0)| == |ts|
    ensures Leading(c, SwapsTx(c, ts, b), 0)[j] == Triple(ts[j].m.pool.hash, ts[j].Swaps(), true)
  {
    var tx, t := SwapsTx(c, ts, b), ts[j];
    SwapsTriple(c, ts, b, j, 3 * j);
    LeadingAt(c, tx, 0, j, 3 * j);
    KeptSwaps(c, tx, 3 * j, MarketReading(t.m, t.p, t.q));
  }

  // ----- one script's scan

  /** Among kept triples of different pools the scan of pool `at` ends at the end, if that pool's own step is valid. */
  lemma {:induction false} OwnIsScanned(vs: seq<Triple>, at: nat, t: nat)
    requires at < |vs| && t <= |vs|
    requires forall k :: 0 <= k < |vs| ==> vs[k].kept && (vs[k].pool == vs[at].pool <==> k == at)
    ensures Scan(vs, vs[at].pool, t, at < t) == if at < t || vs[at].valid then Some(|vs|) else None
    decreases |vs| - t
  {
    if t < |vs| {
      OwnIsScanned(vs, at, t + 1);
    }
  }

  // ----- groups

  /** Pools are of different types, and no asset or user cell is of a pool's type. */
  ghost predicate PoolsDiffer(c: Consts, ts: seq<Trade>, userIn: seq<Cell>, userOut: seq<Cell>)
    requires AllValid(c, ts)
  {
    && (forall j, k :: 0 <= j < k < |ts| ==> ts[j].m.pool.hash != ts[k].m.pool.hash)
    && (forall j, k :: 0 <= j < |ts| && 0 <= k < |ts| ==> NotAsset(ts[j].m, ts[k].m.pool.hash))
    && (forall k :: 0 <= k < |ts| ==> !Carries(userIn, ts[k].m.pool.hash) && !Carries(userOut, ts[k].m.pool.hash))
  }

  predicate NotAsset(m: Market, hash: Hash)
    requires |m.lock.args| == LOCK_ARGS_SIZE
  {
    Udt1(m.lock) != hash && Udt2(m.lock) != hash
  }

  /** How many of the trades are of pool `hash`. */
  function PoolTrades(ts: seq<Trade>, hash: Hash): nat {
    if ts == [] then 0 else (if ts[0].m.pool.hash == hash then 1 else 0) + PoolTrades(ts[1..], hash)
  }

  lemma GroupOfThree(c: Consts, m: Market, ex: Extras, p: Pool, hash: Hash)
    requires m.Valid(c) && StateFits(m, p) && NotAsset(m, hash)
    ensures |TypeGroup(PoolCells(m, ex, p), hash)| == if m.pool.hash == hash then 1 else 0
  {
    var cells := PoolCells(m, ex, p);
    if m.pool.hash == hash {
      OneIsGroup(cells, hash, 0);
    } else {
      assert forall k :: 0 <= k < 3 ==> !HasType(cells[k], hash);
      GroupEmpty(cells, hash);
    }
  }

  lemma {:induction false} GroupIn(c: Consts, ts: seq<Trade>, hash: Hash)
    requires AllValid(c, ts) && forall j :: 0 <= j < |ts| ==> NotAsset(ts[j].m, hash)
    ensures |TypeGroup(CellsIn(c, ts), hash)| == PoolTrades(ts, hash)
  {
    if ts != [] {
      GroupIn(c, ts[1..], hash);
      GroupOfThree(c, ts[0].m, ts[0].before, ts[0].p, hash);
      GroupAppend(PoolCells(ts[0].m, ts[0].before, ts[0].p), CellsIn(c, ts[1..]), hash);
      assert CellsIn(c, ts) == PoolCells(ts[0].m, ts[0].before, ts[0].p) + CellsIn(c, ts[1..]);
    }
  }

  lemma {:induction false} GroupOut(c: Consts, ts: seq<Trade>, hash: Hash)
    requires AllValid(c, ts) && forall j :: 0 <= j < |ts| ==> NotAsset(ts[j].m, hash)
    ensures |TypeGroup(CellsOut(c, ts), hash)| == PoolTrades(ts, hash)
  {
    if ts != [] {
      GroupOut(c, ts[1..], hash);
      GroupOfThree(c, ts[0].m, ts[0].after, ts[0].q, hash);
      GroupAppend(PoolCells(ts[0].m, ts[0].after, ts[0].q), CellsOut(c, ts[1..]), hash);
      assert CellsOut(c, ts) == PoolCells(ts[0].m, ts[0].after, ts[0].q) + CellsOut(c, ts[1..]);
    }
  }

  lemma {:induction false} NoneTrades(ts: seq<Trade>, hash: Hash)
    requires forall j :: 0 <= j < |ts| ==> ts[j].m.pool.hash != hash
    ensures PoolTrades(ts, hash) == 0
  {
    if ts != [] {
      NoneTrades(ts[1..], hash);
    }
  }

  lemma {:induction false} OnceTrades(ts: seq<Trade>, hash: Hash, at: nat)
    requires at < |ts| && forall j :: 0 <= j < |ts| ==> (ts[j].m.pool.hash == hash <==> j == at)
    ensures PoolTrades(ts, hash) == 1
  {
    assert forall j :: 0 <= j < |ts| - 1 ==> ts[1..][j] == ts[j + 1];
    if at == 0 {
      NoneTrades(ts[1..], hash);
    } else {
      OnceTrades(ts[1..], hash, at - 1);
    }
  }

  lemma SwapsGroups(c: Consts, ts: seq<Trade>, b: Beside, j: nat)
    requires AllValid(c, ts) && 6100000000 * |ts| < TWO64 && PoolsDiffer(c, ts, b.userIn, b.userOut) && j < |ts|
    ensures UpdateGroupOk(SwapsTx(c, ts, b), ts[j].m.pool)
  {
    var hash, feeCell := ts[j].m.pool.hash, b.FeeCell(|ts|);
    OnceTrades(ts, hash, j);
    GroupIn(c, ts, hash);
    GroupOut(c, ts, hash);
    NoGroup(b.userIn, hash);
    NoGroup(b.userOut, hash);
    GroupAppend(CellsIn(c, ts), b.userIn, hash);
    GroupAppend(CellsOut(c, ts), [feeCell], hash);
    GroupAppend(CellsOut(c, ts) + [feeCell], b.userOut, hash);
    assert [feeCell][1..] == [];
  }

  // ----- acceptance

  /**
   * Any number of pools trading in one transaction: each pool's script accepts if and only if its own trade is a swap
   * above the default reserves.
   */
  lemma EachSwapAccepted(
    c: Consts, ts: seq<Trade>, b: Beside, j: nat)
    requires AllValid(c, ts) && 6100000000 * |ts| < TWO64 && PoolsDiffer(c, ts, b.userIn, b.userOut) && j < |ts|
    requires b.fee.hash == c.feeLock
    ensures UpdateOk(c, SwapsTx(c, ts, b), ts[j].m.pool) == ts[j].Swaps()
  {
    var tx := SwapsTx(c, ts, b);
    SwapsGroups(c, ts, b, j);
    SwapsFee(c, ts, b, 3 * |ts|);
    SwapsLeading(c, ts, b);
    SwapsScanned(c, ts, b, j);
  }

  lemma SwapsScanned(
    c: Consts, ts: seq<Trade>, b: Beside, j: nat)
    requires AllValid(c, ts) && 6100000000 * |ts| < TWO64 && PoolsDiffer(c, ts, b.userIn, b.userOut) && j < |ts|
    requires |Leading(c, SwapsTx(c, ts, b), 0)| == |ts|
    ensures Scan(Leading(c, SwapsTx(c, ts, b), 0), ts[j].m.pool.hash, 0, false)
         == if ts[j].Swaps() then Some(|ts|) else None
  {
    var vs := Leading(c, SwapsTx(c, ts, b), 0);
    forall k | 0 <= k < |ts| ensures vs[k] == Triple(ts[k].m.pool.hash, ts[k].Swaps(), true) {
      SwapsTripleIs(c, ts, b, k);
    }
    OwnIsScanned(vs, j, 0);
  }

  // ----- the locks

  /** How many of the first `n` trades are under lock `hash`. */
  function LockTrades(ts: seq<Trade>, hash: Hash, n: nat): nat
    requires n <= |ts|
  {
    if n == 0 then 0 else LockTrades(ts, hash, n - 1) + if ts[n - 1].m.lock.hash == hash then 1 else 0
  }

  lemma {:induction false} LockTradesRest(ts: seq<Trade>, hash: Hash, n: nat)
    requires 0 < n <= |ts|
    ensures LockTrades(ts, hash, n) == (if ts[0].m.lock.hash == hash then 1 else 0) + LockTrades(ts[1..], hash, n - 1)
  {
    if n > 1 {
      LockTradesRest(ts, hash, n - 1);
    }
  }

  lemma ThreeUnder(m: Market, ex: Extras, p: Pool, hash: Hash)
    requires |m.lock.args| == LOCK_ARGS_SIZE && StateFits(m, p)
    ensures |LockGroup(PoolCells(m, ex, p), hash)| == if m.lock.hash == hash then 3 else 0
  {
    if m.lock.hash == hash {
      AllUnder(PoolCells(m, ex, p), hash);
    } else {
      NoneUnder(PoolCells(m, ex, p), hash);
    }
  }

  lemma {:induction false} LockGroupIn(c: Consts, ts: seq<Trade>, hash: Hash)
    requires AllValid(c, ts)
    ensures |LockGroup(CellsIn(c, ts), hash)| == 3 * LockTrades(ts, hash, |ts|)
  {
    if ts != [] {
      var three := PoolCells(ts[0].m, ts[0].before, ts[0].p);
      LockGroupIn(c, ts[1..], hash);
      LockGroupAppend(three, CellsIn(c, ts[1..]), hash);
      assert CellsIn(c, ts) == three + CellsIn(c, ts[1..]);
      LockTradesRest(ts, hash, |ts|);
      ThreeUnder(ts[0].m, ts[0].before, ts[0].p, hash);
    }
  }

  lemma SwapsGuarded(c: Consts, ts: seq<Trade>, userIn: seq<Cell>, hash: Hash, j: nat, i: nat)
    requires AllValid(c, ts) && j < |ts| && i == 3 * j
    ensures GuardedTriple(c, CellsIn(c, ts) + userIn, hash, i) == (ts[j].m.lock.hash == hash)
  {
    ThreesAt(c, ts, j);
    InRowAt(ThreesIn(c, ts), userIn, j, i);
  }

  lemma {:induction false} SwapsCounted(c: Consts, ts: seq<Trade>, userIn: seq<Cell>, hash: Hash, n: nat)
    requires AllValid(c, ts) && n <= |ts|
    ensures Guarded(c, CellsIn(c, ts) + userIn, hash, n) == LockTrades(ts, hash, n)
  {
    if n > 0 {
      var i, inputs := 3 * (n - 1), CellsIn(c, ts) + userIn;
      SwapsCounted(c, ts, userIn, hash, n - 1);
      SwapsGuarded(c, ts, userIn, hash, n - 1, i);
      NextGuarded(c, inputs, hash, n, i);
    }
  }

  lemma {:induction false} TradeCounts(ts: seq<Trade>, hash: Hash, n: nat, j: nat)
    requires j < n <= |ts| && ts[j].m.lock.hash == hash
    ensures LockTrades(ts, hash, n) > 0
  {
    if j < n - 1 {
      TradeCounts(ts, hash, n - 1, j);
    }
  }

  lemma LockGroupSize(c: Consts, ts: seq<Trade>, userIn: seq<Cell>, hash: Hash)
    requires AllValid(c, ts) && forall k :: 0 <= k < |userIn| ==> userIn[k].lock.hash != hash
    ensures |LockGroup(CellsIn(c, ts) + userIn, hash)| == 3 * LockTrades(ts, hash, |ts|)
  {
    LockGroupIn(c, ts, hash);
    NoneUnder(userIn, hash);
    LockGroupAppend(CellsIn(c, ts), userIn, hash);
  }

  /** Every lock of the pools opens, shared or not, given as many turns as there are pools. */
  lemma LocksOpen(c: Consts, ts: seq<Trade>, userIn: seq<Cell>, j: nat, turns: nat)
    requires AllValid(c, ts) && j < |ts| && turns >= |ts|
    requires forall k :: 0 <= k < |userIn| ==> userIn[k].lock.hash != ts[j].m.lock.hash
    ensures UnlockedWithin(c, CellsIn(c, ts) + userIn, ts[j].m.lock.hash, turns)
  {
    var hash, inputs := ts[j].m.lock.hash, CellsIn(c, ts) + userIn;
    LockGroupSize(c, ts, userIn, hash);
    SwapsCounted(c, ts, userIn, hash, |ts|);
    TradeCounts(ts, hash, |ts|, j);
    Unlocks(c, inputs, hash, |ts|, turns, LockTrades(ts, hash, |ts|));
  }

  lemma Unlocks(c: Consts, inputs: seq<Cell>, hash: Hash, n: nat, turns: nat, third: nat)
    requires n <= turns && third > 0 && |LockGroup(inputs, hash)| == 3 * third && Guarded(c, inputs, hash, n) == third
    ensures UnlockedWithin(c, inputs, hash, turns)
  {
    GuardedMono(c, inputs, hash, n, turns);
  }

  /** Swaps of any number of pools go through: every pool's script accepts, and every lock opens. */
  lemma SwapsGoThrough(
    c: Consts, ts: seq<Trade>, b: Beside, turns: nat)
    requires AllValid(c, ts) && 6100000000 * |ts| < TWO64 && PoolsDiffer(c, ts, b.userIn, b.userOut) && turns >= |ts|
    requires b.fee.hash == c.feeLock && forall j :: 0 <= j < |ts| ==> ts[j].Swaps()
    requires forall j, k :: 0 <= j < |ts| && 0 <= k < |b.userIn| ==> b.userIn[k].lock.hash != ts[j].m.lock.hash
    ensures forall j :: 0 <= j < |ts| ==> TradeGoesThrough(c, SwapsTx(c, ts, b), ts[j].m, turns)
  {
    forall j | 0 <= j < |ts|
      ensures TradeGoesThrough(c, SwapsTx(c, ts, b), ts[j].m, turns)
    {
      EachSwapAccepted(c, ts, b, j);
      LocksOpen(c, ts, b.userIn, j, turns);
    }
  }

  /** The script of the market's pool accepts the transaction, and its lock opens. */
  ghost predicate TradeGoesThrough(c: Consts, tx: Tx, m: Market, turns: nat) {
    UpdateOk(c, tx, m.pool) && UnlockedWithin(c, tx.inputs, m.lock.hash, turns)
  }
}
