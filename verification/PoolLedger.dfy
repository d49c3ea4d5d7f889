/** One pool and its liquidity token over a whole chain of accepted transactions. */
module PoolLedger {
  import opened Numbers
  import opened Transaction
  import opened PoolRuns
  import opened PoolRules
  import opened PoolAgreement
  import opened TokenRules
  import opened Ledger

  // ----- a pool and what belongs to it

  /** A pool's type, its liquidity token's type, and the lock the pool is created under. */
  datatype Family = Family(pool: Script, token: Script, owner: Script) {
    predicate Valid(c: Consts) {
      && pool.codeHash == c.poolCode && |owner.args| == LOCK_ARGS_SIZE
      && TokenOfPool(c, token, pool, owner.hash)
    }
  }

  /** A type with the hash of `s`, or with its code and args, is `s`. */
  predicate Identified(t: Option<Script>, s: Script) {
    t.Some? && (t.value.hash == s.hash || (t.value.codeHash == s.codeHash && t.value.args == s.args)) ==> t.value == s
  }

  /** Hashes identify the pool, its token and its lock in these cells. */
  ghost predicate Named(cells: seq<Cell>, f: Family) {
    forall k :: 0 <= k < |cells| ==>
      Identified(cells[k].typ, f.pool) && Identified(cells[k].typ, f.token)
      && (cells[k].lock.hash == f.owner.hash ==> cells[k].lock == f.owner)
  }

  /** Every pool cell among these is under the pool's lock. */
  ghost predicate Owned(cells: seq<Cell>, f: Family) {
    forall k :: 0 <= k < |cells| && HasType(cells[k], f.pool.hash) ==> cells[k].lock == f.owner
  }

  /** The pool's script accepts the transaction if it runs. */
  ghost predicate PoolAccepts(c: Consts, f: Family, tx: Tx) {
    Carries(tx.inputs, f.pool.hash) || Carries(tx.outputs, f.pool.hash) ==> Accepts(c, tx, f.pool)
  }

  /** The token's script accepts the transaction if it runs. */
  ghost predicate TokenAgrees(c: Consts, f: Family, tx: Tx) {
    Carries(tx.inputs, f.token.hash) || Carries(tx.outputs, f.token.hash) ==> TokenAccepts(c, tx, f.token)
  }

  function Default1(f: Family): nat
    requires |f.owner.args| == LOCK_ARGS_SIZE
  {
    Default(Udt1(f.owner))
  }

  function Default2(f: Family): nat
    requires |f.owner.args| == LOCK_ARGS_SIZE
  {
    Default(Udt2(f.owner))
  }

  // ----- what the token's script guarantees

  lemma GroupIsToken(f: Family, tx: Tx)
    requires Named(tx.inputs, f) && Named(tx.outputs, f)
    ensures GroupScript(tx, f.token).Some? ==> GroupScript(tx, f.token) == Some(f.token)
  {
    var groupIn := TypeGroup(tx.inputs, f.token.hash);
    var groupOut := TypeGroup(tx.outputs, f.token.hash);
    if groupIn != [] {
      var j := GroupMember(tx.inputs, f.token.hash, 0);
      GroupTyped(tx.inputs, f.token.hash, 0);
      assert Identified(tx.inputs[j].typ, f.token);
    } else if groupOut != [] {
      var j := GroupMember(tx.outputs, f.token.hash, 0);
      GroupTyped(tx.outputs, f.token.hash, 0);
      assert Identified(tx.outputs[j].typ, f.token);
    }
  }

  lemma OwnerIsPool(c: Consts, f: Family, tx: Tx)
    requires f.Valid(c) && Named(tx.inputs, f) && OwnerCellsOk(c, tx, Some(f.token))
    ensures HasType(tx.inputs[0], f.pool.hash)
  {
    assert Identified(tx.inputs[0].typ, f.pool);
  }

  lemma NoTokens(f: Family, tx: Tx)
    requires !Carries(tx.inputs, f.token.hash) && !Carries(tx.outputs, f.token.hash)
    ensures SumOf(Tokens, f.token.hash, tx.inputs) == 0 == SumOf(Tokens, f.token.hash, tx.outputs)
  {
    SumOfNone(Tokens, f.token.hash, tx.inputs);
    SumOfNone(Tokens, f.token.hash, tx.outputs);
  }

  /** Without the pool at input 0 the token is only passed on. */
  lemma TokensPassedOn(c: Consts, f: Family, tx: Tx)
    requires f.Valid(c) && TokenAgrees(c, f, tx) && Named(tx.inputs, f) && Named(tx.outputs, f)
    requires tx.inputs != [] ==> !HasType(tx.inputs[0], f.pool.hash)
    ensures SumOf(Tokens, f.token.hash, tx.inputs) == SumOf(Tokens, f.token.hash, tx.outputs)
  {
    if Carries(tx.inputs, f.token.hash) || Carries(tx.outputs, f.token.hash) {
      TokensOfGroup(f.token.hash, tx.inputs);
      TokensOfGroup(f.token.hash, tx.outputs);
      GroupIsToken(f, tx);
      if OwnerMode(tx, f.token) {
        OwnerIsPool(c, f, tx);
      }
    } else {
      NoTokens(f, tx);
    }
  }

  /** Under the pool's lock at input 0, the token's script has weighed its sums against the recorded liquidity. */
  lemma OwnerBalances(c: Consts, f: Family, tx: Tx)
    requires f.Valid(c) && TokenAccepts(c, tx, f.token)
    requires tx.inputs != [] && tx.outputs != [] && tx.inputs[0].lock == f.owner
    ensures Total(TypeGroup(tx.inputs, f.token.hash)) < TWO128 && Total(TypeGroup(tx.outputs, f.token.hash)) < TWO128
    ensures RecordedIn(tx.inputs[0]).liquidity < TWO128 && RecordedIn(tx.outputs[0]).liquidity < TWO128
    ensures Balances(Total(TypeGroup(tx.inputs, f.token.hash)), Total(TypeGroup(tx.outputs, f.token.hash)),
                     RecordedIn(tx.inputs[0]).liquidity, RecordedIn(tx.outputs[0]).liquidity)
  {
    assert OwnerMode(tx, f.token);
  }

  /** With the pool at input 0, tokens and recorded liquidity move together, modulo 2^128. */
  lemma TokensFollow(c: Consts, f: Family, tx: Tx)
    requires f.Valid(c) && TokenAgrees(c, f, tx)
    requires tx.inputs != [] && tx.outputs != [] && tx.inputs[0].lock == f.owner
    requires Carries(tx.inputs, f.token.hash) || Carries(tx.outputs, f.token.hash)
    ensures Follows(SumOf(Tokens, f.token.hash, tx.inputs), SumOf(Tokens, f.token.hash, tx.outputs),
                    RecordedIn(tx.inputs[0]).liquidity, RecordedIn(tx.outputs[0]).liquidity)
  {
    TokensOfGroup(f.token.hash, tx.inputs);
    TokensOfGroup(f.token.hash, tx.outputs);
    OwnerBalances(c, f, tx);
    BalancesFollow(SumOf(Tokens, f.token.hash, tx.inputs), SumOf(Tokens, f.token.hash, tx.outputs),
      RecordedIn(tx.inputs[0]).liquidity, RecordedIn(tx.outputs[0]).liquidity);
  }

  lemma BalancesFollow(input: U128, output: U128, before: U128, after: U128)
    requires Balances(input, output, before, after)
    ensures Follows(input, output, before, after)
  {
    BalancesIsCongruence(input, output, before, after);
  }

  /** Tokens going from `input` to `output` while liquidity goes from `before` to `after`. */
  predicate Follows(input: int, output: int, before: int, after: int) {
    (input + after - output - before) % TWO128 == 0
  }

  // ----- what the pool's script guarantees

  /** The sums of recorded reserves and liquidity over the pool's cells. */
  function PoolIn(f: Family, cells: seq<Cell>): Pool {
    Pool(SumOf(Reserve1, f.pool.hash, cells), SumOf(Reserve2, f.pool.hash, cells), SumOf(TotalLiquidity, f.pool.hash, cells))
  }

  lemma PoolInNone(f: Family, cells: seq<Cell>)
    requires !Carries(cells, f.pool.hash)
    ensures PoolIn(f, cells) == Pool(0, 0, 0) && SumOf(CellCount, f.pool.hash, cells) == 0
  {
    SumOfNone(Reserve1, f.pool.hash, cells);
    SumOfNone(Reserve2, f.pool.hash, cells);
    SumOfNone(TotalLiquidity, f.pool.hash, cells);
    SumOfNone(CellCount, f.pool.hash, cells);
  }

  lemma PoolInOne(f: Family, cells: seq<Cell>, at: nat)
    requires at < |cells| && forall k :: 0 <= k < |cells| ==> (HasType(cells[k], f.pool.hash) <==> k == at)
    ensures PoolIn(f, cells) == RecordedIn(cells[at]) && SumOf(CellCount, f.pool.hash, cells) == 1
  {
    SumOfOne(Reserve1, f.pool.hash, cells, at);
    SumOfOne(Reserve2, f.pool.hash, cells, at);
    SumOfOne(TotalLiquidity, f.pool.hash, cells, at);
    SumOfOne(CellCount, f.pool.hash, cells, at);
  }

  /** A valid step of the pool between recorded states. */
  predicate PoolStep(d1: nat, d2: nat, p: Pool, q: Pool) {
    AboveMinimum(d1, d2, p, q) && Step(Net(d1, d2, p), Net(d1, d2, q))
  }

  /** The pool's cell before and after an update, and whose triple it heads. */
  lemma UpdatedPool(c: Consts, f: Family, tx: Tx) returns (k: nat)
    requires f.Valid(c) && UpdateOk(c, tx, f.pool)
    ensures k < |Leading(c, tx, 0)| && Leading(c, tx, 0)[k].valid && OnlyAt(tx, f.pool.hash, 3 * k)
    ensures PoolIn(f, tx.inputs) == RecordedIn(tx.inputs[3 * k]) && PoolIn(f, tx.outputs) == RecordedIn(tx.outputs[3 * k])
    ensures SumOf(CellCount, f.pool.hash, tx.inputs) == 1 == SumOf(CellCount, f.pool.hash, tx.outputs)
  {
    k := AcceptedUpdate(c, tx, f.pool);
    PoolInOne(f, tx.inputs, 3 * k);
    PoolInOne(f, tx.outputs, 3 * k);
  }

  /** What a valid leading triple under the pool's lock does to the pool. */
  lemma TripleSteps(c: Consts, f: Family, tx: Tx, k: nat, i: nat)
    requires f.Valid(c) && k < |Leading(c, tx, 0)| && Leading(c, tx, 0)[k].valid && i == 3 * k
    requires i < |tx.inputs| && i < |tx.outputs| && tx.inputs[i].lock == f.owner
    ensures PoolStep(Default1(f), Default2(f), RecordedIn(tx.inputs[i]), RecordedIn(tx.outputs[i]))
    ensures Leading(c, tx, 0)[k].kept <==> RecordedIn(tx.inputs[i]).liquidity == RecordedIn(tx.outputs[i]).liquidity
    ensures tx.outputs[i].lock.hash == f.owner.hash
  {
    TripleShows(c, tx, k, i);
    ReadingSteps(c, tx, i, ReadingOf(c, tx, i));
  }

  lemma ReadingSteps(c: Consts, tx: Tx, i: nat, r: Reading)
    requires ReadingStepOk(c, tx, i, r)
    ensures PoolStep(DefaultFor(r.isCkb1), DefaultFor(r.isCkb2), r.before, r.after)
  {
  }

  /** A pool is created under its lock, at its default reserves, and its type names the first input. */
  lemma CreatedPool(c: Consts, f: Family, tx: Tx)
    requires f.Valid(c) && CreateOk(c, tx, f.pool) && tx.outputs[0].lock == f.owner
    ensures !Carries(tx.inputs, f.pool.hash) && PoolIn(f, tx.outputs) == Pool(Default1(f), Default2(f), 0)
    ensures SumOf(CellCount, f.pool.hash, tx.outputs) == 1
    ensures tx.refs != [] && tx.refs[0] == f.pool.args
    ensures Owned(tx.outputs, f)
  {
    GroupEmpty(tx.inputs, f.pool.hash);
    var at := GroupOfOne(tx.outputs, f.pool.hash);
    assert HasType(tx.outputs[0], f.pool.hash);
    PoolInOne(f, tx.outputs, 0);
  }

  /** Liquidity changes only in the presence of a cell of the pool's token. */
  lemma ChangeCarriesToken(c: Consts, f: Family, tx: Tx)
    requires f.Valid(c) && Named(tx.inputs, f) && Named(tx.outputs, f)
    requires Leading(c, tx, 0) != [] && Leading(c, tx, 0)[0].valid && !Leading(c, tx, 0)[0].kept
    requires tx.inputs != [] && HasType(tx.inputs[0], f.pool.hash) && tx.inputs[0].lock == f.owner
    ensures Carries(tx.inputs, f.token.hash) || Carries(tx.outputs, f.token.hash)
  {
    TripleShows(c, tx, 0, 0);
    assert Identified(tx.inputs[0].typ, f.pool);
    ChangeNeedsToken(c, tx, ReadingOf(c, tx, 0));
    if LiquidityCellOk(c, tx, tx.outputs, ADD_LIQUIDITY_CELL_INDEX) {
      TokenIsCarried(c, f, tx, tx.outputs, ADD_LIQUIDITY_CELL_INDEX);
    } else {
      TokenIsCarried(c, f, tx, tx.inputs, REMOVE_LIQUIDITY_CELL_START_INDEX);
    }
  }

  lemma ChangeNeedsToken(c: Consts, tx: Tx, r: Reading)
    requires ReadingStepOk(c, tx, 0, r) && r.before.liquidity != r.after.liquidity
    ensures LiquidityCellOk(c, tx, tx.outputs, ADD_LIQUIDITY_CELL_INDEX)
         || LiquidityCellOk(c, tx, tx.inputs, REMOVE_LIQUIDITY_CELL_START_INDEX)
  {
  }

  lemma TokenIsCarried(c: Consts, f: Family, tx: Tx, cells: seq<Cell>, index: nat)
    requires f.Valid(c) && Named(cells, f) && LiquidityCellOk(c, tx, cells, index)
    requires tx.inputs[0].typ == Some(f.pool) && tx.inputs[0].lock == f.owner
    ensures Carries(cells, f.token.hash)
  {
    assert Identified(cells[index].typ, f.token);
    assert HasType(cells[index], f.token.hash);
  }

  /** An update moves tokens and liquidity together, keeps the pool's lock, and is a valid step of the pool. */
  lemma UpdateEffect(c: Consts, f: Family, tx: Tx)
    requires f.Valid(c) && UpdateOk(c, tx, f.pool) && TokenAgrees(c, f, tx)
    requires Named(tx.inputs, f) && Named(tx.outputs, f) && Owned(tx.inputs, f)
    ensures SumOf(CellCount, f.pool.hash, tx.inputs) == 1 == SumOf(CellCount, f.pool.hash, tx.outputs)
    ensures PoolStep(Default1(f), Default2(f), PoolIn(f, tx.inputs), PoolIn(f, tx.outputs))
    ensures TokensKeepUp(f, tx)
    ensures Owned(tx.outputs, f)
  {
    var k := UpdatedPool(c, f, tx);
    TripleSteps(c, f, tx, k, 3 * k);
    LaterStepsSwap(c, tx);
    if k == 0 && (Carries(tx.inputs, f.token.hash) || Carries(tx.outputs, f.token.hash)) {
      TokensFollow(c, f, tx);
    } else if k == 0 {
      if !Leading(c, tx, 0)[0].kept {
        ChangeCarriesToken(c, f, tx);
      }
      NoTokens(f, tx);
    } else {
      TokensPassedOn(c, f, tx);
    }
  }

  /** Over a transaction, the token's cells gain what the pool's recorded liquidity gains, modulo 2^128. */
  predicate TokensKeepUp(f: Family, tx: Tx) {
    Follows(SumOf(Tokens, f.token.hash, tx.inputs), SumOf(Tokens, f.token.hash, tx.outputs),
      PoolIn(f, tx.inputs).liquidity, PoolIn(f, tx.outputs).liquidity)
  }
}
