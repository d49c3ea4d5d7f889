/** Transactions built as the client builds them, and their acceptance by the pool's script. */
module HonestTransactions {
  import opened Numbers
  import opened ByteOrder
  import opened Transaction
  import opened PoolRuns
  import opened PoolRules
  import opened PoolAgreement

  // ----- cells

  /** The data of a pool cell: both reserves, then the total liquidity. */
  function PoolData(p: Pool): (data: seq<byte>)
    ensures |data| == UDTSWAP_DATA_SIZE
  {
    ToLe(p.r1, 16) + ToLe(p.r2, 16) + ToLe(p.liquidity, 16)
  }

  lemma AmountAt(data: seq<byte>, from: nat, amount: nat)
    requires from + 16 <= |data| && amount < TWO128 && data[from..from + 16] == ToLe(amount, 16)
    ensures Amount(data, from) == amount
  {
    AmountRange();
    LeOfToLe(amount, 16);
  }

  lemma PoolDataReadsBack(p: Pool)
    requires InRange(p)
    ensures Recorded(PoolData(p)) == p
  {
    var data := PoolData(p);
    assert data[0..16] == ToLe(p.r1, 16);
    assert data[16..32] == ToLe(p.r2, 16);
    assert data[32..48] == ToLe(p.liquidity, 16);
    AmountAt(data, 0, p.r1);
    AmountAt(data, 16, p.r2);
    AmountAt(data, 32, p.liquidity);
  }

  /** A pool's type, its lock, and the types of its assets; an asset that is CKB has none. */
  datatype Market = Market(pool: Script, lock: Script, type1: Script, type2: Script) {
    predicate Valid(c: Consts) {
      && pool.codeHash == c.poolCode && |pool.args| == TX_INPUT_SIZE
      && lock.codeHash == c.lockCode && |lock.args| == LOCK_ARGS_SIZE
      && (Udt1(lock) != CKB_HASH ==> type1.hash == Udt1(lock))
      && (Udt2(lock) != CKB_HASH ==> type2.hash == Udt2(lock))
      && Udt1(lock) != pool.hash && Udt2(lock) != pool.hash
    }
  }

  predicate Representable(udt: Hash, amount: nat) {
    amount < TWO128 && (udt == CKB_HASH ==> amount < TWO64)
  }

  /**
   * A cell with an amount of an asset: capacity if it is CKB, else the first 16 bytes of the data, under the asset's
   * type. More data may follow.
   */
  function AssetCell(udt: Hash, typ: Script, lock: Script, capacity: U64, more: seq<byte>, amount: nat): Cell
    requires Representable(udt, amount)
  {
    if udt == CKB_HASH then Cell(amount, lock, None, more) else Cell(capacity, lock, Some(typ), ToLe(amount, 16) + more)
  }

  lemma AssetCellHolds(buf: Buffer, udt: Hash, typ: Script, lock: Script, capacity: U64, more: seq<byte>, amount: nat)
    requires Representable(udt, amount) && (udt != CKB_HASH ==> typ.hash == udt)
    ensures OfAsset(udt, AssetCell(udt, typ, lock, capacity, more, amount))
    ensures Locked(buf, udt, AssetCell(udt, typ, lock, capacity, more, amount)) == amount
  {
    if udt != CKB_HASH {
      var data := ToLe(amount, 16);
      assert LoadInto(buf, data + more, UDT_AMOUNT_SIZE) == data;
      assert data[0..16] == data;
      AmountAt(data, 0, amount);
    }
  }

  predicate StateFits(m: Market, p: Pool)
    requires |m.lock.args| == LOCK_ARGS_SIZE
  {
    Representable(Udt1(m.lock), p.r1) && Representable(Udt2(m.lock), p.r2) && p.liquidity < TWO128
  }

  /**
   * What the amounts leave open in the three cells of a pool: capacities, of which that of a cell with CKB is its
   * amount instead, and data behind the amounts.
   */
  datatype Extras = Extras(head: U64, first: U64, second: U64, firstMore: seq<byte>, secondMore: seq<byte>)

  function PoolCells(m: Market, ex: Extras, p: Pool): (cells: seq<Cell>)
    requires |m.lock.args| == LOCK_ARGS_SIZE && StateFits(m, p)
    ensures |cells| == 3
  {
    [Cell(ex.head, m.lock, Some(m.pool), PoolData(p)),
     AssetCell(Udt1(m.lock), m.type1, m.lock, ex.first, ex.firstMore, p.r1),
     AssetCell(Udt2(m.lock), m.type2, m.lock, ex.second, ex.secondMore, p.r2)]
  }

  /** What stands around a pool's own cells: inputs' references, what is open in the pool's cells, and the user's cells. */
  datatype Around = Around(
    refs: seq<TxIn>, before: Extras, after: Extras, userIn: seq<Cell>, userOut: seq<Cell>, feeData: seq<byte>)
  {
    /** The user's cells are not the pool's. */
    predicate Apart(hash: Hash) {
      !Carries(userIn, hash) && !Carries(userOut, hash)
    }
  }

  /** The fee cell for one pool. */
  function FeeCell(fee: Script, data: seq<byte>): Cell {
    Cell(6100000000, fee, None, data)
  }

  /** One pool goes from `p` to `q`, the fee is paid behind it, and the user's cells follow. */
  function UpdateTx(m: Market, fee: Script, a: Around, p: Pool, q: Pool): Tx
    requires |m.lock.args| == LOCK_ARGS_SIZE && StateFits(m, p) && StateFits(m, q)
  {
    Tx(a.refs, PoolCells(m, a.before, p) + a.userIn, PoolCells(m, a.after, q) + [FeeCell(fee, a.feeData)] + a.userOut)
  }

  function MarketReading(m: Market, p: Pool, q: Pool): Reading
    requires |m.lock.args| == LOCK_ARGS_SIZE
  {
    Reading(Udt1(m.lock) == CKB_HASH, Udt2(m.lock) == CKB_HASH, p, q)
  }

  // ----- acceptance of an update

  lemma PoolCellsHold(m: Market, c: Consts, ex: Extras, p: Pool, buf1: Buffer, buf2: Buffer)
    requires m.Valid(c) && StateFits(m, p)
    ensures var cells := PoolCells(m, ex, p);
      && Recorded(cells[0].data) == p
      && OfAsset(Udt1(m.lock), cells[1]) && Locked(buf1, Udt1(m.lock), cells[1]) == p.r1
      && OfAsset(Udt2(m.lock), cells[2]) && Locked(buf2, Udt2(m.lock), cells[2]) == p.r2
      && cells[0].lock == cells[1].lock == cells[2].lock == m.lock && cells[0].typ == Some(m.pool)
  {
    PoolDataReadsBack(p);
    AssetCellHolds(buf1, Udt1(m.lock), m.type1, m.lock, ex.first, ex.firstMore, p.r1);
    AssetCellHolds(buf2, Udt2(m.lock), m.type2, m.lock, ex.second, ex.secondMore, p.r2);
  }

  /** The three cells of a pool stand at `i`. */
  predicate CellsAt(cells: seq<Cell>, i: nat, three: seq<Cell>)
    requires |three| == 3
  {
    i + 2 < |cells| && cells[i] == three[0] && cells[i + 1] == three[1] && cells[i + 2] == three[2]
  }

  /** A pool's cells at the same place in inputs and outputs make a triple of that pool. */
  lemma CellsMakeTriple(c: Consts, tx: Tx, i: nat, m: Market, before: Extras, after: Extras, p: Pool, q: Pool)
    requires m.Valid(c) && StateFits(m, p) && StateFits(m, q)
    requires CellsAt(tx.inputs, i, PoolCells(m, before, p)) && CellsAt(tx.outputs, i, PoolCells(m, after, q))
    ensures TripleOk(c, tx, i) && ReadingOf(c, tx, i) == MarketReading(m, p, q)
    ensures TripleAt(c, tx, i).pool == m.pool.hash
  {
    PoolCellsHold(m, c, before, p, c.At(i).before1, c.At(i).before2);
    PoolCellsHold(m, c, after, q, c.At(i).after1, c.At(i).after2);
  }

  lemma UpdateTxTriple(c: Consts, m: Market, fee: Script, a: Around, p: Pool, q: Pool)
    requires m.Valid(c) && StateFits(m, p) && StateFits(m, q)
    ensures TripleOk(c, UpdateTx(m, fee, a, p, q), 0) && !TripleOk(c, UpdateTx(m, fee, a, p, q), 3)
    ensures ReadingOf(c, UpdateTx(m, fee, a, p, q), 0) == MarketReading(m, p, q)
  {
    UpdateTxCells(m, fee, a, p, q);
    CellsMakeTriple(c, UpdateTx(m, fee, a, p, q), 0, m, a.before, a.after, p, q);
  }

  lemma UpdateTxCells(m: Market, fee: Script, a: Around, p: Pool, q: Pool)
    requires |m.lock.args| == LOCK_ARGS_SIZE && StateFits(m, p) && StateFits(m, q)
    ensures var tx, cellsIn, cellsOut := UpdateTx(m, fee, a, p, q), PoolCells(m, a.before, p), PoolCells(m, a.after, q);
      && |tx.inputs| >= 3 && |tx.outputs| >= 4
      && tx.inputs[0] == cellsIn[0] && tx.inputs[1] == cellsIn[1] && tx.inputs[2] == cellsIn[2]
      && tx.outputs[0] == cellsOut[0] && tx.outputs[1] == cellsOut[1] && tx.outputs[2] == cellsOut[2]
      && tx.outputs[3] == FeeCell(fee, a.feeData)
      && tx.inputs[3..] == a.userIn && tx.outputs[4..] == a.userOut
  {
  }

  /** Only the head of a pool's own cells has the pool's type. */
  lemma OnlyHead(c: Consts, m: Market, ex: Extras, p: Pool, rest: seq<Cell>)
    requires m.Valid(c) && StateFits(m, p) && !Carries(rest, m.pool.hash)
    ensures |TypeGroup(PoolCells(m, ex, p) + rest, m.pool.hash)| == 1
  {
    var cells := PoolCells(m, ex, p) + rest;
    assert forall k :: 3 <= k < |cells| ==> cells[k] == rest[k - 3];
    OneIsGroup(cells, m.pool.hash, 0);
  }

  lemma UpdateTxGroups(c: Consts, m: Market, fee: Script, a: Around, p: Pool, q: Pool)
    requires m.Valid(c) && StateFits(m, p) && StateFits(m, q) && a.Apart(m.pool.hash)
    ensures UpdateGroupOk(UpdateTx(m, fee, a, p, q), m.pool)
  {
    OnlyHead(c, m, a.before, p, a.userIn);
    var rest := [FeeCell(fee, a.feeData)] + a.userOut;
    assert forall k :: 1 <= k < |rest| ==> rest[k] == a.userOut[k - 1];
    OnlyHead(c, m, a.after, q, rest);
    assert UpdateTx(m, fee, a, p, q).outputs == PoolCells(m, a.after, q) + rest;
  }

  lemma LeadingOfOne(c: Consts, tx: Tx)
    requires TripleOk(c, tx, 0) && !TripleOk(c, tx, 3)
    ensures Leading(c, tx, 0) == [TripleAt(c, tx, 0)]
  {
    assert Leading(c, tx, 3) == [];
  }

  lemma ScanOfOne(t: Triple, hash: Hash)
    requires t.pool == hash
    ensures Scan([t], hash, 0, false) == if t.valid then Some(1) else None
  {
    assert Scan([t], hash, 1, true) == Some(1);
  }

  lemma FeeIsPaid(c: Consts, m: Market, fee: Script, a: Around, p: Pool, q: Pool)
    requires m.Valid(c) && StateFits(m, p) && StateFits(m, q) && fee.hash == c.feeLock
    ensures FeeOk(c, UpdateTx(m, fee, a, p, q), 3, 1)
  {
    UpdateTxCells(m, fee, a, p, q);
  }

  /** Such a transaction is accepted by the pool's script if and only if its step is valid. */
  lemma UpdateTxAccepted(c: Consts, m: Market, fee: Script, a: Around, p: Pool, q: Pool)
    requires m.Valid(c) && StateFits(m, p) && StateFits(m, q) && fee.hash == c.feeLock && a.Apart(m.pool.hash)
    ensures UpdateOk(c, UpdateTx(m, fee, a, p, q), m.pool)
         == ReadingStepOk(c, UpdateTx(m, fee, a, p, q), 0, MarketReading(m, p, q))
  {
    var tx := UpdateTx(m, fee, a, p, q);
    UpdateTxTriple(c, m, fee, a, p, q);
    LeadingOfOne(c, tx);
    UpdateTxGroups(c, m, fee, a, p, q);
    FeeIsPaid(c, m, fee, a, p, q);
    ScanOfOne(Leading(c, tx, 0)[0], m.pool.hash);
  }

  // ----- swaps, deposits and withdrawals

  /** A swap between reserves above the defaults. */
  predicate SwapsAbove(d1: nat, d2: nat, p: Pool, q: Pool) {
    AboveMinimum(d1, d2, p, q) && SwapStep(Net(d1, d2, p), Net(d1, d2, q))
  }

  predicate AddsAbove(d1: nat, d2: nat, p: Pool, q: Pool) {
    AboveMinimum(d1, d2, p, q)
    && (FirstDeposit(Net(d1, d2, p), Net(d1, d2, q)) || AddStep(Net(d1, d2, p), Net(d1, d2, q)))
  }

  predicate RemovesAbove(d1: nat, d2: nat, p: Pool, q: Pool) {
    AboveMinimum(d1, d2, p, q) && RemoveStep(Net(d1, d2, p), Net(d1, d2, q))
  }

  /** The first of the user's cells is of a token of the pool. */
  predicate TokenFirst(c: Consts, m: Market, cells: seq<Cell>) {
    cells != [] && cells[0].typ.Some? && TokenOfPool(c, cells[0].typ.value, m.pool, m.lock.hash)
  }

  lemma ReadingByLiquidity(c: Consts, tx: Tx, r: Reading)
    ensures r.before.liquidity == r.after.liquidity ==>
              ReadingStepOk(c, tx, 0, r) == SwapsAbove(DefaultFor(r.isCkb1), DefaultFor(r.isCkb2), r.before, r.after)
    ensures r.before.liquidity < r.after.liquidity ==>
              ReadingStepOk(c, tx, 0, r) == (AddsAbove(DefaultFor(r.isCkb1), DefaultFor(r.isCkb2), r.before, r.after)
                                             && LiquidityCellOk(c, tx, tx.outputs, ADD_LIQUIDITY_CELL_INDEX))
    ensures r.before.liquidity > r.after.liquidity ==>
              ReadingStepOk(c, tx, 0, r) == (RemovesAbove(DefaultFor(r.isCkb1), DefaultFor(r.isCkb2), r.before, r.after)
                                             && LiquidityCellOk(c, tx, tx.inputs, REMOVE_LIQUIDITY_CELL_START_INDEX))
  {
  }

  lemma TokenCellsOf(c: Consts, m: Market, fee: Script, a: Around, p: Pool, q: Pool)
    requires m.Valid(c) && StateFits(m, p) && StateFits(m, q)
    ensures var tx := UpdateTx(m, fee, a, p, q);
      && LiquidityCellOk(c, tx, tx.outputs, ADD_LIQUIDITY_CELL_INDEX) == TokenFirst(c, m, a.userOut)
      && LiquidityCellOk(c, tx, tx.inputs, REMOVE_LIQUIDITY_CELL_START_INDEX) == TokenFirst(c, m, a.userIn)
  {
    var tx := UpdateTx(m, fee, a, p, q);
    UpdateTxCells(m, fee, a, p, q);
    assert a.userOut != [] ==> tx.outputs[4] == a.userOut[0];
    assert a.userIn != [] ==> tx.inputs[3] == a.userIn[0];
  }

  /** With liquidity kept, such a transaction is accepted if and only if it is a swap above the default reserves. */
  lemma SwapTxAccepted(c: Consts, m: Market, fee: Script, a: Around, p: Pool, q: Pool)
    requires m.Valid(c) && StateFits(m, p) && StateFits(m, q) && fee.hash == c.feeLock && a.Apart(m.pool.hash)
    requires p.liquidity == q.liquidity
    ensures UpdateOk(c, UpdateTx(m, fee, a, p, q), m.pool)
         == SwapsAbove(Default(Udt1(m.lock)), Default(Udt2(m.lock)), p, q)
  {
    UpdateTxAccepted(c, m, fee, a, p, q);
    ReadingByLiquidity(c, UpdateTx(m, fee, a, p, q), MarketReading(m, p, q));
  }

  /** With liquidity growing, if and only if it is a deposit and the user's first output is of the pool's token. */
  lemma DepositTxAccepted(c: Consts, m: Market, fee: Script, a: Around, p: Pool, q: Pool)
    requires m.Valid(c) && StateFits(m, p) && StateFits(m, q) && fee.hash == c.feeLock && a.Apart(m.pool.hash)
    requires p.liquidity < q.liquidity
    ensures UpdateOk(c, UpdateTx(m, fee, a, p, q), m.pool)
         == (AddsAbove(Default(Udt1(m.lock)), Default(Udt2(m.lock)), p, q) && TokenFirst(c, m, a.userOut))
  {
    UpdateTxAccepted(c, m, fee, a, p, q);
    ReadingByLiquidity(c, UpdateTx(m, fee, a, p, q), MarketReading(m, p, q));
    TokenCellsOf(c, m, fee, a, p, q);
  }

  /** With liquidity falling, if and only if it is a withdrawal and the user's first input is of the pool's token. */
  lemma RemovalTxAccepted(c: Consts, m: Market, fee: Script, a: Around, p: Pool, q: Pool)
    requires m.Valid(c) && StateFits(m, p) && StateFits(m, q) && fee.hash == c.feeLock && a.Apart(m.pool.hash)
    requires p.liquidity > q.liquidity
    ensures UpdateOk(c, UpdateTx(m, fee, a, p, q), m.pool)
         == (RemovesAbove(Default(Udt1(m.lock)), Default(Udt2(m.lock)), p, q) && TokenFirst(c, m, a.userIn))
  {
    UpdateTxAccepted(c, m, fee, a, p, q);
    ReadingByLiquidity(c, UpdateTx(m, fee, a, p, q), MarketReading(m, p, q));
    TokenCellsOf(c, m, fee, a, p, q);
  }

  // ----- creation

  /** A new pool at the head of the outputs; anything may be spent, and anything may follow. */
  function CreationTx(m: Market, ex: Extras, refs: seq<TxIn>, spent: seq<Cell>, more: seq<Cell>): Tx
    requires |m.lock.args| == LOCK_ARGS_SIZE
  {
    Tx(refs, spent, PoolCells(m, ex, NewPool(m)) + more)
  }

  function NewPool(m: Market): (p: Pool)
    requires |m.lock.args| == LOCK_ARGS_SIZE
    ensures StateFits(m, p)
  {
    Pool(Default(Udt1(m.lock)), Default(Udt2(m.lock)), 0)
  }

  lemma CreationCells(c: Consts, m: Market, ex: Extras, refs: seq<TxIn>, spent: seq<Cell>, more: seq<Cell>)
    requires m.Valid(c)
    ensures NewCellsOk(c, CreationTx(m, ex, refs, spent, more)) == Less(Udt1(m.lock), Udt2(m.lock))
    ensures var outputs, cells := CreationTx(m, ex, refs, spent, more).outputs, PoolCells(m, ex, NewPool(m));
      |outputs| >= 3 && outputs[0] == cells[0] && outputs[1] == cells[1] && outputs[2] == cells[2]
  {
    PoolCellsHold(m, c, ex, NewPool(m), c.created, c.created);
  }

  lemma CreationGroup(c: Consts, m: Market, ex: Extras, refs: seq<TxIn>, spent: seq<Cell>, more: seq<Cell>)
    requires m.Valid(c) && !Carries(spent, m.pool.hash) && !Carries(more, m.pool.hash)
    ensures CreateGroupOk(CreationTx(m, ex, refs, spent, more), m.pool)
  {
    OnlyHead(c, m, ex, NewPool(m), more);
    GroupEmpty(spent, m.pool.hash);
  }

  /** The buffer's old bytes from the eighth on are zero. */
  predicate CleanTail(buf: Buffer) {
    buf[8..] == ToLe(0, 8)
  }

  lemma CreationAmounts(c: Consts, m: Market, ex: Extras, refs: seq<TxIn>, spent: seq<Cell>, more: seq<Cell>)
    requires m.Valid(c) && Less(Udt1(m.lock), Udt2(m.lock)) && NewCellsOk(c, CreationTx(m, ex, refs, spent, more))
    ensures NewAmountsOk(c, CreationTx(m, ex, refs, spent, more)) == (Udt1(m.lock) == CKB_HASH ==> CleanTail(c.created))
  {
    CreationCells(c, m, ex, refs, spent, more);
    PoolDataReadsBack(NewPool(m));
    CkbIsLeast(Udt1(m.lock));
    FirstAsset(c, m, ex);
    SecondAsset(c, m, ex);
  }

  /**
   * Creation is accepted exactly if the assets are in byte order, the type names the first input, and, when the first
   * asset is CKB, the upper half of the second amount's buffer was zero: only eight bytes are loaded into it then.
   */
  lemma CreationAccepted(c: Consts, m: Market, ex: Extras, refs: seq<TxIn>, spent: seq<Cell>, more: seq<Cell>)
    requires m.Valid(c) && !Carries(spent, m.pool.hash) && !Carries(more, m.pool.hash)
    ensures CreateOk(c, CreationTx(m, ex, refs, spent, more), m.pool)
         == (refs != [] && m.pool.args == refs[0]
             && (exists k :: 0 <= k < 32 && Udt1(m.lock)[..k] == Udt2(m.lock)[..k] && Udt1(m.lock)[k] < Udt2(m.lock)[k])
             && (Udt1(m.lock) == CKB_HASH ==> CleanTail(c.created)))
  {
    LessIsFirstDifference(Udt1(m.lock), Udt2(m.lock));
    CreationCells(c, m, ex, refs, spent, more);
    CreationGroup(c, m, ex, refs, spent, more);
    if Less(Udt1(m.lock), Udt2(m.lock)) {
      CreationAmounts(c, m, ex, refs, spent, more);
    }
  }

  const ONE: Buffer := ToLe(1, 16)

  lemma LoadsOfOne(buf: Buffer, more: seq<byte>, limit: nat)
    ensures limit >= 16 ==> LoadInto(buf, ONE + more, limit) == ONE
    ensures limit == 8 ==> (LoadInto(buf, ONE + more, limit) == ONE <==> CleanTail(buf))
  {
    OneHalf();
    var loaded := LoadInto(buf, ONE + more, 8);
    assert loaded == ONE[..8] + buf[8..] && ONE == ONE[..8] + ONE[8..];
    assert loaded[8..] == buf[8..];
  }

  lemma FirstAsset(c: Consts, m: Market, ex: Extras)
    requires m.Valid(c)
    ensures var udt := Udt1(m.lock);
      Deposited(udt, PoolCells(m, ex, NewPool(m))[1], c.created, UDTSWAP_DATA_SIZE) == Default(udt)
  {
    LoadsOfOne(c.created, ex.firstMore, UDTSWAP_DATA_SIZE);
    AmountIsOne(ONE);
  }

  lemma SecondAsset(c: Consts, m: Market, ex: Extras)
    requires m.Valid(c) && Udt2(m.lock) != CKB_HASH
    ensures var udt1, udt2, cells := Udt1(m.lock), Udt2(m.lock), PoolCells(m, ex, NewPool(m));
      Deposited(udt2, cells[2], LeftBuffer(c, udt1, cells[1]), LeftLength(udt1, cells[1])) == Default(udt2)
      <==> (udt1 == CKB_HASH ==> CleanTail(c.created))
  {
    if Udt1(m.lock) == CKB_HASH {
      LoadsOfOne(c.created, ex.secondMore, 8);
      AmountIsOne(LoadInto(c.created, ONE + ex.secondMore, 8));
    } else {
      LoadsOfOne(c.created, ex.firstMore, UDTSWAP_DATA_SIZE);
      LoadsOfOne(ONE, ex.secondMore, 16 + |ex.firstMore|);
      AmountIsOne(ONE);
    }
  }

  lemma {:induction false} SmallTail(x: nat, n: nat, k: nat)
    requires x < 0x100 && 0 < k <= n
    ensures ToLe(x, n)[k..] == ToLe(0, n - k)
  {
    assert ToLe(x, n)[1..] == ToLe(0, n - 1);
    if k > 1 {
      SmallTail(0, n - 1, k - 1);
      assert ToLe(x, n)[k..] == ToLe(x, n)[1..][k - 1..];
    }
  }

  lemma OneHalf()
    ensures ONE[8..] == ToLe(0, 8)
  {
    SmallTail(1, 16, 8);
  }

  lemma AmountIsOne(buf: Buffer)
    ensures Amount(buf, 0) == 1 <==> buf == ONE
  {
    AmountRange();
    assert buf[0..16] == buf;
    ToLeOfLe(buf);
    LeOfToLe(1, 16);
  }
}
