/** Whole chains of accepted transactions: one pool, its token, and what every such chain keeps. */
module ChainRuns {
  import opened Numbers
  import opened Transaction
  import opened PoolRuns
  import opened PoolRules
  import opened Ledger
  import opened PoolLedger

  // ----- one posting

  /** A transaction that the pool's and the token's scripts accept, if they run on it. */
  ghost predicate Admissible(c: Consts, f: Family, tx: Tx)
    requires f.Valid(c)
  {
    && Named(tx.inputs, f) && Named(tx.outputs, f)
    && PoolAccepts(c, f, tx) && TokenAgrees(c, f, tx)
    && CreatedUnderOwner(c, f, tx)
  }

  /** The family's owner lock is the one under which the pool gets created. */
  ghost predicate CreatedUnderOwner(c: Consts, f: Family, tx: Tx)
    requires f.Valid(c)
  {
    CreateOk(c, tx, f.pool) ==> tx.outputs[0].lock == f.owner
  }

  /** The posting can be made, and is admissible with whatever its scripts found in their buffers. */
  ghost predicate CanTurn(c: Consts, f: Family, entries: seq<Entry>, p: Posting) {
    f.Valid(c) && CanPost(entries, p) && exists d :: SameCodes(c, d) && Admissible(d, f, p.tx)
  }

  /** The pool as recorded in its live cells. */
  function State(f: Family, entries: seq<Entry>): Pool {
    Pool(Sum(Reserve1, f.pool.hash, entries), Sum(Reserve2, f.pool.hash, entries), Sum(TotalLiquidity, f.pool.hash, entries))
  }

  function PoolCount(f: Family, entries: seq<Entry>): nat {
    Sum(CellCount, f.pool.hash, entries)
  }

  function Outstanding(f: Family, entries: seq<Entry>): nat {
    Sum(Tokens, f.token.hash, entries)
  }

  ghost predicate OwnedLive(f: Family, entries: seq<Entry>) {
    forall j :: 0 <= j < |entries| && entries[j].live && HasType(entries[j].cell, f.pool.hash) ==>
      entries[j].cell.lock == f.owner
  }

  /** A cell created at `point` has been spent. */
  ghost predicate SpentPoint(entries: seq<Entry>, point: OutPoint) {
    exists j :: 0 <= j < |entries| && entries[j].point == point && !entries[j].live
  }

  /** What every chain keeps: one pool cell at most, under its lock, and tokens that follow its liquidity. */
  ghost predicate Good(f: Family, entries: seq<Entry>)
    requires |f.pool.args| == TX_INPUT_SIZE
  {
    && DistinctPoints(entries)
    && OwnedLive(f, entries)
    && PoolCount(f, entries) <= 1
    && (PoolCount(f, entries) == 1 ==> SpentPoint(entries, PointOf(f.pool.args)))
    && (Outstanding(f, entries) - State(f, entries).liquidity) % TWO128 == 0
  }

  // ----- spending

  lemma {:induction false} SpendKeeps(entries: seq<Entry>, at: seq<nat>, refs: seq<TxIn>, inputs: seq<Cell>, j: nat)
    requires CanSpend(entries, at, refs, inputs) && j < |entries|
    ensures |Spend(entries, at, refs, inputs)| == |entries|
    ensures Spend(entries, at, refs, inputs)[j].point == entries[j].point
    ensures Spend(entries, at, refs, inputs)[j].cell == entries[j].cell
    ensures Spend(entries, at, refs, inputs)[j].live ==> entries[j].live
    decreases |at|
  {
    if at != [] {
      SpendKeeps(entries[at[0] := entries[at[0]].(live := false)], at[1..], refs[1..], inputs[1..], j);
    }
  }

  /** Inputs are live entries, and are live no more afterwards. */
  lemma {:induction false} InputWasLive(entries: seq<Entry>, at: seq<nat>, refs: seq<TxIn>, inputs: seq<Cell>, k: nat)
    returns (j: nat)
    requires CanSpend(entries, at, refs, inputs) && k < |inputs|
    ensures j < |entries| && entries[j] == Entry(PointOf(refs[k]), inputs[k], true)
    ensures |Spend(entries, at, refs, inputs)| == |entries| && !Spend(entries, at, refs, inputs)[j].live
    decreases |at|
  {
    var next := entries[at[0] := entries[at[0]].(live := false)];
    if k == 0 {
      j := at[0];
      SpendKeeps(next, at[1..], refs[1..], inputs[1..], j);
    } else {
      j := InputWasLive(next, at[1..], refs[1..], inputs[1..], k - 1);
    }
  }

  lemma {:induction false} CreatedAre(points: seq<OutPoint>, outputs: seq<Cell>, k: nat)
    requires |points| == |outputs|
    ensures |Created(points, outputs)| == |points|
    ensures k < |points| ==> Created(points, outputs)[k] == Entry(points[k], outputs[k], true)
  {
    if points != [] {
      CreatedAre(points[1..], outputs[1..], if k > 0 then k - 1 else 0);
    }
  }

  /** Where an entry after posting comes from. */
  lemma PostedEntry(entries: seq<Entry>, p: Posting, j: nat)
    requires CanPost(entries, p) && j < |Post(entries, p)|
    ensures |Post(entries, p)| == |entries| + |p.tx.outputs|
    ensures j < |entries| ==> Post(entries, p)[j].point == entries[j].point && Post(entries, p)[j].cell == entries[j].cell
    ensures j < |entries| && Post(entries, p)[j].live ==> entries[j].live
    ensures j >= |entries| ==> Post(entries, p)[j].cell == p.tx.outputs[j - |entries|]
  {
    PostedSize(entries, p);
    if j < |entries| {
      SpendKeeps(entries, p.at, p.tx.refs, p.tx.inputs, j);
    } else {
      CreatedAre(p.points, p.tx.outputs, j - |entries|);
    }
  }

  lemma PostedSize(entries: seq<Entry>, p: Posting)
    requires CanPost(entries, p)
    ensures |Post(entries, p)| == |entries| + |p.tx.outputs|
    ensures |Spend(entries, p.at, p.tx.refs, p.tx.inputs)| == |entries|
  {
    if entries != [] {
      SpendKeeps(entries, p.at, p.tx.refs, p.tx.inputs, 0);
    }
    CreatedAre(p.points, p.tx.outputs, 0);
  }

  lemma InputsOwned(f: Family, entries: seq<Entry>, p: Posting)
    requires CanPost(entries, p) && OwnedLive(f, entries)
    ensures Owned(p.tx.inputs, f)
  {
    forall k | 0 <= k < |p.tx.inputs| && HasType(p.tx.inputs[k], f.pool.hash) ensures p.tx.inputs[k].lock == f.owner {
      var j := InputWasLive(entries, p.at, p.tx.refs, p.tx.inputs, k);
    }
  }

  lemma OutputsOwned(f: Family, entries: seq<Entry>, p: Posting)
    requires CanPost(entries, p) && OwnedLive(f, entries) && Owned(p.tx.outputs, f)
    ensures OwnedLive(f, Post(entries, p))
  {
    var after := Post(entries, p);
    forall j | 0 <= j < |after| && after[j].live && HasType(after[j].cell, f.pool.hash)
      ensures after[j].cell.lock == f.owner
    {
      PostedEntry(entries, p, j);
    }
  }

  lemma SpentStaysSpent(entries: seq<Entry>, p: Posting, point: OutPoint)
    requires CanPost(entries, p) && SpentPoint(entries, point)
    ensures SpentPoint(Post(entries, p), point)
  {
    var j :| 0 <= j < |entries| && entries[j].point == point && !entries[j].live;
    PostedSize(entries, p);
    PostedEntry(entries, p, j);
    assert Post(entries, p)[j].point == point;
  }

  /** The first input's out point was unspent before, and is spent afterwards. */
  lemma FirstInputIsSpent(entries: seq<Entry>, p: Posting)
    requires CanPost(entries, p) && DistinctPoints(entries) && p.tx.refs != []
    ensures !SpentPoint(entries, PointOf(p.tx.refs[0]))
    ensures SpentPoint(Post(entries, p), PointOf(p.tx.refs[0]))
  {
    var j := InputWasLive(entries, p.at, p.tx.refs, p.tx.inputs, 0);
    PostedSize(entries, p);
    PostedEntry(entries, p, j);
    assert Post(entries, p)[j] == Spend(entries, p.at, p.tx.refs, p.tx.inputs)[j];
  }

  // ----- what one admissible transaction does

  datatype Effect = Unrelated | Creation | Update

  /** What the effect says of the pool's cells in the inputs and the outputs. */
  ghost predicate EffectHolds(f: Family, tx: Tx, e: Effect)
    requires |f.owner.args| == LOCK_ARGS_SIZE
  {
    var countIn, countOut := SumOf(CellCount, f.pool.hash, tx.inputs), SumOf(CellCount, f.pool.hash, tx.outputs);
    match e
    case Unrelated => countIn == 0 == countOut && PoolIn(f, tx.inputs) == Pool(0, 0, 0) == PoolIn(f, tx.outputs)
    case Creation => countIn == 0 && countOut == 1 && tx.refs != [] && tx.refs[0] == f.pool.args
                     && PoolIn(f, tx.inputs) == Pool(0, 0, 0)
                     && PoolIn(f, tx.outputs) == Pool(Default1(f), Default2(f), 0)
    case Update => countIn == 1 == countOut
                   && PoolStep(Default1(f), Default2(f), PoolIn(f, tx.inputs), PoolIn(f, tx.outputs))
  }

  lemma TxEffect(c: Consts, f: Family, tx: Tx) returns (e: Effect)
    requires f.Valid(c) && Admissible(c, f, tx) && Owned(tx.inputs, f)
    ensures EffectHolds(f, tx, e)
    ensures TokensKeepUp(f, tx) && Owned(tx.outputs, f)
  {
    if Carries(tx.inputs, f.pool.hash) {
      PresentIsUpdate(c, f, tx);
      UpdateEffect(c, f, tx);
      e := Update;
    } else {
      TokensPassedOn(c, f, tx);
      PoolInNone(f, tx.inputs);
      if Carries(tx.outputs, f.pool.hash) {
        AbsentIsCreation(c, f, tx);
        CreatedPool(c, f, tx);
        e := Creation;
      } else {
        PoolInNone(f, tx.outputs);
        e := Unrelated;
      }
    }
  }

  lemma PresentIsUpdate(c: Consts, f: Family, tx: Tx)
    requires f.Valid(c) && PoolAccepts(c, f, tx) && Carries(tx.inputs, f.pool.hash)
    ensures UpdateOk(c, tx, f.pool)
  {
    var k :| 0 <= k < |tx.inputs| && HasType(tx.inputs[k], f.pool.hash);
    GroupHas(tx.inputs, f.pool.hash, k);
  }

  lemma AbsentIsCreation(c: Consts, f: Family, tx: Tx)
    requires f.Valid(c) && PoolAccepts(c, f, tx) && Carries(tx.outputs, f.pool.hash) && !Carries(tx.inputs, f.pool.hash)
    ensures CreateOk(c, tx, f.pool)
  {
    GroupEmpty(tx.inputs, f.pool.hash);
  }

  // ----- what one posting does

  lemma StatePosted(f: Family, entries: seq<Entry>, p: Posting)
    requires CanPost(entries, p)
    ensures var b, a, s, t := PoolIn(f, p.tx.inputs), PoolIn(f, p.tx.outputs), State(f, entries), State(f, Post(entries, p));
      && b.r1 <= s.r1 && b.r2 <= s.r2 && b.liquidity <= s.liquidity
      && t == Pool(s.r1 - b.r1 + a.r1, s.r2 - b.r2 + a.r2, s.liquidity - b.liquidity + a.liquidity)
  {
    Posted(Reserve1, f.pool.hash, entries, p);
    Posted(Reserve2, f.pool.hash, entries, p);
    Posted(TotalLiquidity, f.pool.hash, entries, p);
  }

  /** The one live pool cell is the input, so the recorded state is the input's. */
  lemma StateIsInput(f: Family, entries: seq<Entry>, p: Posting)
    requires CanPost(entries, p) && PoolCount(f, entries) == SumOf(CellCount, f.pool.hash, p.tx.inputs)
    ensures State(f, entries) == PoolIn(f, p.tx.inputs)
  {
    var rest := Spend(entries, p.at, p.tx.refs, p.tx.inputs);
    SumSpend(CellCount, f.pool.hash, entries, p.at, p.tx.refs, p.tx.inputs);
    SumSpend(Reserve1, f.pool.hash, entries, p.at, p.tx.refs, p.tx.inputs);
    SumSpend(Reserve2, f.pool.hash, entries, p.at, p.tx.refs, p.tx.inputs);
    SumSpend(TotalLiquidity, f.pool.hash, entries, p.at, p.tx.refs, p.tx.inputs);
    SumOfNoCells(Reserve1, f.pool.hash, rest);
    SumOfNoCells(Reserve2, f.pool.hash, rest);
    SumOfNoCells(TotalLiquidity, f.pool.hash, rest);
  }

  lemma StateOfNone(f: Family, entries: seq<Entry>)
    requires PoolCount(f, entries) == 0
    ensures State(f, entries) == Pool(0, 0, 0)
  {
    SumOfNoCells(Reserve1, f.pool.hash, entries);
    SumOfNoCells(Reserve2, f.pool.hash, entries);
    SumOfNoCells(TotalLiquidity, f.pool.hash, entries);
  }

  /** How the pool gets from one ledger to the next: created, stepped, or left alone. */
  ghost predicate PoolMoves(f: Family, before: seq<Entry>, after: seq<Entry>)
    requires |f.owner.args| == LOCK_ARGS_SIZE
  {
    || (PoolCount(f, after) == PoolCount(f, before) && State(f, after) == State(f, before))
    || (PoolCount(f, before) == 0 && PoolCount(f, after) == 1
        && State(f, after) == Pool(Default1(f), Default2(f), 0))
    || (PoolCount(f, before) == 1 == PoolCount(f, after)
        && PoolStep(Default1(f), Default2(f), State(f, before), State(f, after)))
  }

  lemma SameDifference(tokens: int, liquidity: int, input: int, output: int, before: int, after: int)
    requires (tokens - liquidity) % TWO128 == 0 && Follows(input, output, before, after)
    ensures ((tokens - input + output) - (liquidity - before + after)) % TWO128 == 0
  {
  }

  /** A posting of an admissible transaction keeps all that a chain keeps. */
  lemma TurnKeepsGood(c: Consts, f: Family, entries: seq<Entry>, p: Posting)
    requires f.Valid(c) && Good(f, entries) && CanTurn(c, f, entries, p)
    ensures Good(f, Post(entries, p)) && PoolMoves(f, entries, Post(entries, p))
  {
    InputsOwned(f, entries, p);
    var d :| SameCodes(c, d) && Admissible(d, f, p.tx);
    var e := TxEffect(d, f, p.tx);
    OutputsOwned(f, entries, p);
    EffectMoves(f, entries, p, e);
    TokensStayLevel(f, entries, p);
  }

  lemma TokensStayLevel(f: Family, entries: seq<Entry>, p: Posting)
    requires CanPost(entries, p) && TokensKeepUp(f, p.tx)
    requires (Outstanding(f, entries) - State(f, entries).liquidity) % TWO128 == 0
    ensures (Outstanding(f, Post(entries, p)) - State(f, Post(entries, p)).liquidity) % TWO128 == 0
  {
    Posted(Tokens, f.token.hash, entries, p);
    StatePosted(f, entries, p);
    SameDifference(Outstanding(f, entries), State(f, entries).liquidity,
      SumOf(Tokens, f.token.hash, p.tx.inputs), SumOf(Tokens, f.token.hash, p.tx.outputs),
      PoolIn(f, p.tx.inputs).liquidity, PoolIn(f, p.tx.outputs).liquidity);
  }

  lemma EffectMoves(f: Family, entries: seq<Entry>, p: Posting, e: Effect)
    requires |f.pool.args| == TX_INPUT_SIZE && |f.owner.args| == LOCK_ARGS_SIZE
    requires Good(f, entries) && CanPost(entries, p) && EffectHolds(f, p.tx, e)
    ensures PoolMoves(f, entries, Post(entries, p))
    ensures PoolCount(f, Post(entries, p)) <= 1
    ensures PoolCount(f, Post(entries, p)) == 1 ==> SpentPoint(Post(entries, p), PointOf(f.pool.args))
  {
    PoolCellSpent(f, entries, p, e);
    StatePosted(f, entries, p);
    if e == Update {
      StateIsInput(f, entries, p);
    } else if e == Creation {
      StateOfNone(f, entries);
    }
  }

  /** The pool's cell count never falls nor exceeds one, and counts a cell only once the pool's input is spent. */
  lemma PoolCellSpent(f: Family, entries: seq<Entry>, p: Posting, e: Effect)
    requires |f.pool.args| == TX_INPUT_SIZE && |f.owner.args| == LOCK_ARGS_SIZE
    requires Good(f, entries) && CanPost(entries, p) && EffectHolds(f, p.tx, e)
    ensures e == Creation ==> PoolCount(f, entries) == 0 && PoolCount(f, Post(entries, p)) == 1
    ensures e == Update ==> PoolCount(f, entries) == 1
    ensures e != Creation ==> PoolCount(f, Post(entries, p)) == PoolCount(f, entries)
    ensures PoolCount(f, Post(entries, p)) == 1 ==> SpentPoint(Post(entries, p), PointOf(f.pool.args))
  {
    Posted(CellCount, f.pool.hash, entries, p);
    if PoolCount(f, entries) == 1 {
      SpentStaysSpent(entries, p, PointOf(f.pool.args));
    }
    if e == Creation {
      FirstInputIsSpent(entries, p);
    }
  }

  // ----- whole chains

  /** A chain before the pool and its token exist. */
  ghost predicate Start(f: Family, entries: seq<Entry>) {
    DistinctPoints(entries) && PoolCount(f, entries) == 0 && Sum(CellCount, f.token.hash, entries) == 0
  }

  /** Ledgers, each but the first got by posting an admissible transaction to the one before. */
  ghost predicate Chain(c: Consts, f: Family, ledgers: seq<seq<Entry>>, postings: seq<Posting>) {
    && f.Valid(c) && |ledgers| == |postings| + 1 && Start(f, ledgers[0])
    && forall i {:trigger postings[i]} :: 0 <= i < |postings| ==>
         CanTurn(c, f, ledgers[i], postings[i]) && ledgers[i + 1] == Post(ledgers[i], postings[i])
  }

  lemma {:induction false} NoneOwned(f: Family, entries: seq<Entry>)
    requires PoolCount(f, entries) == 0
    ensures OwnedLive(f, entries)
  {
    if entries != [] {
      NoneOwned(f, entries[1..]);
      assert forall j :: 0 <= j < |entries| - 1 ==> entries[1..][j] == entries[j + 1];
    }
  }

  lemma {:induction false} ChainGood(c: Consts, f: Family, ledgers: seq<seq<Entry>>, postings: seq<Posting>, i: nat)
    requires Chain(c, f, ledgers, postings) && i < |ledgers|
    ensures Good(f, ledgers[i])
  {
    if i == 0 {
      NoneOwned(f, ledgers[0]);
      StateOfNone(f, ledgers[0]);
      SumOfNoCells(Tokens, f.token.hash, ledgers[0]);
    } else {
      ChainGood(c, f, ledgers, postings, i - 1);
      TurnKeepsGood(c, f, ledgers[i - 1], postings[i - 1]);
    }
  }

  /** At every point of every chain the outstanding tokens are the pool's total liquidity, modulo 2^128. */
  lemma TokensTrackLiquidity(c: Consts, f: Family, ledgers: seq<seq<Entry>>, postings: seq<Posting>, i: nat)
    requires Chain(c, f, ledgers, postings) && i < |ledgers|
    ensures (Outstanding(f, ledgers[i]) - State(f, ledgers[i]).liquidity) % TWO128 == 0
  {
    ChainGood(c, f, ledgers, postings, i);
  }

  lemma ChainMoves(c: Consts, f: Family, ledgers: seq<seq<Entry>>, postings: seq<Posting>, i: nat)
    requires Chain(c, f, ledgers, postings) && i < |postings|
    ensures PoolMoves(f, ledgers[i], ledgers[i + 1])
  {
    ChainGood(c, f, ledgers, postings, i);
    TurnKeepsGood(c, f, ledgers[i], postings[i]);
  }

  /** A pool has one live cell at most, and never loses it: it is created at most once. */
  lemma {:induction false} OnePoolCell(c: Consts, f: Family, ledgers: seq<seq<Entry>>, postings: seq<Posting>, i: nat, j: nat)
    requires Chain(c, f, ledgers, postings) && i <= j < |ledgers|
    ensures PoolCount(f, ledgers[i]) <= PoolCount(f, ledgers[j]) <= 1
  {
    ChainGood(c, f, ledgers, postings, j);
    if i < j {
      OnePoolCell(c, f, ledgers, postings, i, j - 1);
      ChainMoves(c, f, ledgers, postings, j - 1);
    }
  }

  // ----- value over a chain

  /** Reserves at or above the defaults, and what is above them empty or funded together with the liquidity. */
  ghost predicate Sane(f: Family, entries: seq<Entry>)
    requires |f.owner.args| == LOCK_ARGS_SIZE
  {
    var s := State(f, entries);
    && s.r1 >= Default1(f) && s.r2 >= Default2(f)
    && (NetState(f, entries).Empty() || NetState(f, entries).Funded())
  }

  function NetState(f: Family, entries: seq<Entry>): Pool
    requires |f.owner.args| == LOCK_ARGS_SIZE
    requires State(f, entries).r1 >= Default1(f) && State(f, entries).r2 >= Default2(f)
  {
    Net(Default1(f), Default2(f), State(f, entries))
  }

  lemma StepKeepsSane(f: Family, before: seq<Entry>, after: seq<Entry>)
    requires |f.owner.args| == LOCK_ARGS_SIZE
    requires Sane(f, before) && PoolStep(Default1(f), Default2(f), State(f, before), State(f, after))
    ensures Sane(f, after) && NetState(f, after).Funded()
    ensures NetState(f, before).Funded() ==> NoWorse(NetState(f, before), NetState(f, after))
  {
    StepFunds(NetState(f, before), NetState(f, after));
    if NetState(f, before).Funded() {
      StepNoWorse(NetState(f, before), NetState(f, after));
    }
  }

  /** From creation on, the pool is empty or funded, above its default reserves. */
  lemma {:induction false} PoolIsSane(c: Consts, f: Family, ledgers: seq<seq<Entry>>, postings: seq<Posting>, i: nat)
    requires Chain(c, f, ledgers, postings) && i < |ledgers| && PoolCount(f, ledgers[i]) == 1
    ensures Sane(f, ledgers[i])
  {
    if i > 0 {
      ChainMoves(c, f, ledgers, postings, i - 1);
      if PoolCount(f, ledgers[i - 1]) == 1 {
        PoolIsSane(c, f, ledgers, postings, i - 1);
        if State(f, ledgers[i]) != State(f, ledgers[i - 1]) {
          StepKeepsSane(f, ledgers[i - 1], ledgers[i]);
        }
      }
    }
  }

  /** Over every chain, a funded pool stays funded and the value of a share of it never falls. */
  lemma {:induction false} ShareValueNeverFalls(
    c: Consts, f: Family, ledgers: seq<seq<Entry>>, postings: seq<Posting>, i: nat, j: nat)
    requires Chain(c, f, ledgers, postings) && i <= j < |ledgers|
    requires PoolCount(f, ledgers[i]) == 1 && Sane(f, ledgers[i]) && NetState(f, ledgers[i]).Funded()
    ensures Sane(f, ledgers[j]) && NetState(f, ledgers[j]).Funded()
    ensures NoWorse(NetState(f, ledgers[i]), NetState(f, ledgers[j]))
  {
    if i < j {
      ShareValueNeverFalls(c, f, ledgers, postings, i, j - 1);
      OnePoolCell(c, f, ledgers, postings, i, j - 1);
      ChainMoves(c, f, ledgers, postings, j - 1);
      if State(f, ledgers[j]) != State(f, ledgers[j - 1]) {
        StepKeepsSane(f, ledgers[j - 1], ledgers[j]);
        NoWorseTransitive(NetState(f, ledgers[i]), NetState(f, ledgers[j - 1]), NetState(f, ledgers[j]));
      }
    }
  }

  // ----- when the tokens are exactly the liquidity

  /** A fall of liquidity is covered by the tokens among the inputs. */
  predicate BurnCovered(f: Family, tx: Tx) {
    SumOf(Tokens, f.token.hash, tx.inputs) + PoolIn(f, tx.outputs).liquidity >= PoolIn(f, tx.inputs).liquidity
  }

  lemma {:induction false} LiquidityBounded(f: Family, cells: seq<Cell>)
    ensures PoolIn(f, cells).liquidity <= (TWO128 - 1) * SumOf(CellCount, f.pool.hash, cells)
  {
    if cells != [] {
      LiquidityBounded(f, cells[1..]);
    }
  }

  lemma {:induction false} StateBounded(f: Family, entries: seq<Entry>)
    ensures State(f, entries).liquidity <= (TWO128 - 1) * PoolCount(f, entries)
  {
    if entries != [] {
      StateBounded(f, entries[1..]);
    }
  }

  /** The token's outputs fit in 128 bits, for its script has summed them. */
  lemma OutputsFit(c: Consts, f: Family, tx: Tx)
    requires f.Valid(c) && TokenAgrees(c, f, tx)
    ensures SumOf(Tokens, f.token.hash, tx.outputs) < TWO128
  {
    if Carries(tx.outputs, f.token.hash) {
      TokensOfGroup(f.token.hash, tx.outputs);
    } else {
      SumOfNone(Tokens, f.token.hash, tx.outputs);
    }
  }

  lemma SmallDifference(input: int, output: int, before: int, after: int)
    requires Follows(input, output, before, after)
    requires 0 <= output < TWO128 && input + after - before < TWO128
    ensures input + after == output + before <==> input + after >= before
  {
  }

  /**
   * If tokens and liquidity are equal before a posting, they are equal after it exactly when the fall of
   * liquidity, if any, is covered.
   */
  lemma EqualIffCovered(c: Consts, f: Family, entries: seq<Entry>, p: Posting)
    requires f.Valid(c) && Good(f, entries) && CanTurn(c, f, entries, p)
    requires Outstanding(f, entries) == State(f, entries).liquidity
    ensures Outstanding(f, Post(entries, p)) == State(f, Post(entries, p)).liquidity <==> BurnCovered(f, p.tx)
  {
    InputsOwned(f, entries, p);
    var d :| SameCodes(c, d) && Admissible(d, f, p.tx);
    var e := TxEffect(d, f, p.tx);
    Posted(Tokens, f.token.hash, entries, p);
    StatePosted(f, entries, p);
    OutputsFit(d, f, p.tx);
    InputsWithin(f, entries, p, e);
    SmallDifference(SumOf(Tokens, f.token.hash, p.tx.inputs), SumOf(Tokens, f.token.hash, p.tx.outputs),
      PoolIn(f, p.tx.inputs).liquidity, PoolIn(f, p.tx.outputs).liquidity);
  }

  lemma InputsWithin(f: Family, entries: seq<Entry>, p: Posting, e: Effect)
    requires |f.pool.args| == TX_INPUT_SIZE && |f.owner.args| == LOCK_ARGS_SIZE
    requires Good(f, entries) && CanPost(entries, p) && EffectHolds(f, p.tx, e)
    requires SumOf(Tokens, f.token.hash, p.tx.inputs) <= Outstanding(f, entries) == State(f, entries).liquidity
    ensures SumOf(Tokens, f.token.hash, p.tx.inputs) + PoolIn(f, p.tx.outputs).liquidity
            - PoolIn(f, p.tx.inputs).liquidity < TWO128
  {
    StateBounded(f, entries);
    LiquidityBounded(f, p.tx.outputs);
    Posted(CellCount, f.pool.hash, entries, p);
    if e == Update {
      StateIsInput(f, entries, p);
    }
  }

  /** On chains whose every fall of liquidity is covered, the outstanding tokens are the total liquidity. */
  lemma {:induction false} TokensEqualLiquidity(
    c: Consts, f: Family, ledgers: seq<seq<Entry>>, postings: seq<Posting>, i: nat)
    requires Chain(c, f, ledgers, postings) && i < |ledgers|
    requires forall k :: 0 <= k < i ==> BurnCovered(f, postings[k].tx)
    ensures Outstanding(f, ledgers[i]) == State(f, ledgers[i]).liquidity
  {
    ChainGood(c, f, ledgers, postings, i);
    if i == 0 {
      StateOfNone(f, ledgers[0]);
      SumOfNoCells(Tokens, f.token.hash, ledgers[0]);
    } else {
      TokensEqualLiquidity(c, f, ledgers, postings, i - 1);
      ChainGood(c, f, ledgers, postings, i - 1);
      EqualIffCovered(c, f, ledgers[i - 1], postings[i - 1]);
    }
  }
}
