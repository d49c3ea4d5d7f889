/** Over whole chains, what is locked under a pool lock covers what the pools under it have recorded. */
module Solvency {
  import opened Numbers
  import opened ByteOrder
  import opened Transaction
  import opened PoolRuns
  import opened PoolRules
  import opened PoolAgreement
  import opened LockRules
  import opened Custody
  import opened SeparateRuns
  import opened Ledger

  // ----- one asset of a lock

  /** The first or the second asset of the pair that a pool lock is for. */
  datatype Side = First | Second

  function AssetOf(owner: Script, side: Side): Hash
    requires |owner.args| == LOCK_ARGS_SIZE
  {
    if side == First then Udt1(owner) else Udt2(owner)
  }

  /** What is locked under the lock outside pool cells. */
  function LockedOf(code: Hash, owner: Script, side: Side): What
    requires |owner.args| == LOCK_ARGS_SIZE
  {
    Holdings(code, AssetOf(owner, side))
  }

  /** What the pools under the lock have recorded. */
  function RecordedOf(code: Hash, side: Side): What {
    if side == First then Booked1(code) else Booked2(code)
  }

  predicate PairDiffers(owner: Script)
    requires |owner.args| == LOCK_ARGS_SIZE
  {
    Udt1(owner) != Udt2(owner)
  }

  // ----- one triple

  /** A pool cell and the two asset cells that back it, all under the lock. */
  predicate Backed(code: Hash, owner: Script, h: Cell, x: Cell, y: Cell)
    requires |owner.args| == LOCK_ARGS_SIZE
  {
    && h.lock.hash == owner.hash && x.lock.hash == owner.hash && y.lock.hash == owner.hash
    && OfCode(code, h) && !OfCode(code, x) && !OfCode(code, y)
    && OfAsset(Udt1(owner), x) && OfAsset(Udt2(owner), y)
    && RecordedIn(h).r1 == Holding(Udt1(owner), x) && RecordedIn(h).r2 == Holding(Udt2(owner), y)
  }

  /** What is locked in three cells is what is recorded in them. */
  predicate ThreeBalance(code: Hash, owner: Script, side: Side, h: Cell, x: Cell, y: Cell)
    requires |owner.args| == LOCK_ARGS_SIZE
  {
    WeightOfThree(LockedOf(code, owner, side), owner.hash, h, x, y) == WeightOfThree(RecordedOf(code, side), owner.hash, h, x, y)
  }

  lemma BackedBalances(code: Hash, owner: Script, side: Side, h: Cell, x: Cell, y: Cell)
    requires |owner.args| == LOCK_ARGS_SIZE && PairDiffers(owner) && Backed(code, owner, h, x, y)
    ensures ThreeBalance(code, owner, side, h, x, y)
  {
  }

  lemma ElsewhereBalances(code: Hash, owner: Script, side: Side, h: Cell, x: Cell, y: Cell)
    requires |owner.args| == LOCK_ARGS_SIZE
    requires h.lock.hash != owner.hash && x.lock.hash != owner.hash && y.lock.hash != owner.hash
    ensures ThreeBalance(code, owner, side, h, x, y)
  {
  }

  lemma {:induction false} SumOfAppend(what: What, hash: Hash, a: seq<Cell>, b: seq<Cell>)
    ensures SumOf(what, hash, a + b) == SumOf(what, hash, a) + SumOf(what, hash, b)
  {
    if a == [] {
      assert a + b == b;
    } else {
      SumOfAppend(what, hash, a[1..], b);
      assert (a + b)[1..] == a[1..] + b;
    }
  }

  lemma SumOfOneMore(what: What, hash: Hash, cells: seq<Cell>, i: nat)
    requires i < |cells|
    ensures SumOf(what, hash, cells[..i + 1]) == SumOf(what, hash, cells[..i]) + CellWeight(what, hash, cells[i])
  {
    assert cells[..i + 1] == cells[..i] + [cells[i]];
    SumOfAppend(what, hash, cells[..i], [cells[i]]);
    assert [cells[i]][1..] == [];
  }

  /** Three more cells. */
  lemma SumOfThree(what: What, hash: Hash, cells: seq<Cell>, i: nat)
    requires i + 2 < |cells|
    ensures SumOf(what, hash, cells[..i + 3])
         == SumOf(what, hash, cells[..i]) + WeightOfThree(what, hash, cells[i], cells[i + 1], cells[i + 2])
  {
    SumOfOneMore(what, hash, cells, i);
    SumOfOneMore(what, hash, cells, i + 1);
    SumOfOneMore(what, hash, cells, i + 2);
  }

  function WeightOfThree(what: What, hash: Hash, h: Cell, x: Cell, y: Cell): nat {
    CellWeight(what, hash, h) + CellWeight(what, hash, x) + CellWeight(what, hash, y)
  }

  lemma {:induction false} SumOfZeros(what: What, hash: Hash, cells: seq<Cell>)
    requires forall k :: 0 <= k < |cells| ==> CellWeight(what, hash, cells[k]) == 0
    ensures SumOf(what, hash, cells) == 0
  {
    if cells != [] {
      assert forall k :: 0 <= k < |cells| - 1 ==> cells[1..][k] == cells[k + 1];
      SumOfZeros(what, hash, cells[1..]);
    }
  }

  /** From `m` on nothing adds to the sum. */
  lemma SumOfFront(what: What, hash: Hash, cells: seq<Cell>, m: nat)
    requires m <= |cells| && forall k :: m <= k < |cells| ==> CellWeight(what, hash, cells[k]) == 0
    ensures SumOf(what, hash, cells) == SumOf(what, hash, cells[..m])
  {
    assert cells == cells[..m] + cells[m..];
    SumOfAppend(what, hash, cells[..m], cells[m..]);
    assert forall k :: 0 <= k < |cells| - m ==> cells[m..][k] == cells[m + k];
    SumOfZeros(what, hash, cells[m..]);
  }

  // ----- one transaction

  ghost predicate WholeUnder(cells: seq<Cell>, hash: Hash) {
    forall k :: 0 <= k < |cells| && cells[k].lock.hash == hash ==> Whole(cells[k])
  }

  ghost predicate LockNamed(cells: seq<Cell>, owner: Script) {
    forall k :: 0 <= k < |cells| && cells[k].lock.hash == owner.hash ==> cells[k].lock == owner
  }

  ghost predicate AnyUnder(cells: seq<Cell>, hash: Hash) {
    exists k :: 0 <= k < |cells| && Under(cells, k, hash)
  }

  /** The lock's hash stands for it alone, and typed cells under it are long enough to hold an amount. */
  ghost predicate Fitting(owner: Script, tx: Tx) {
    && |owner.args| == LOCK_ARGS_SIZE
    && LockNamed(tx.inputs, owner) && LockNamed(tx.outputs, owner)
    && WholeUnder(tx.inputs, owner.hash) && WholeUnder(tx.outputs, owner.hash)
  }

  /** All pool scripts accept, and the lock's script does where it runs. */
  ghost predicate VaultAccepts(c: Consts, owner: Script, tx: Tx) {
    && AllAccept(c, tx)
    && (AnyUnder(tx.inputs, owner.hash) ==> exists turns :: UnlockedWithin(c, tx.inputs, owner.hash, turns))
  }

  lemma InputsUpdate(c: Consts, tx: Tx)
    requires AllAcceptOn(c, tx, tx.inputs)
    ensures AllUpdateOn(c, tx, tx.inputs)
  {
    forall k | 0 <= k < |tx.inputs| && IsPool(c, tx.inputs[k]) ensures UpdateOk(c, tx, tx.inputs[k].typ.value) {
      InputsAreNotCreated(c, tx, k);
    }
  }

  /** An input under the lock stands in a leading triple, headed by a pool cell under the lock. */
  lemma UnderStandsInTriple(c: Consts, owner: Script, tx: Tx, k: nat, i: nat)
    requires VaultAccepts(c, owner, tx) && Under(tx.inputs, k, owner.hash) && i == 3 * (k / 3)
    ensures k / 3 < |Leading(c, tx, 0)|
    ensures i < |tx.inputs| && IsPool(c, tx.inputs[i]) && tx.inputs[i].lock.hash == owner.hash
  {
    var turns :| UnlockedWithin(c, tx.inputs, owner.hash, turns);
    LockedCellsMoveInSteps(c, tx, owner.hash, turns, k);
    UnlockedOnlyInTriples(c, tx.inputs, owner.hash, turns, k);
    GuardedHeadIsPool(c, tx, owner.hash, i);
  }

  lemma WholeHolds(buf: Buffer, udt: Hash, cell: Cell)
    requires Whole(cell) && OfAsset(udt, cell)
    ensures Locked(buf, udt, cell) == Holding(udt, cell)
  {
    if udt != CKB_HASH {
      var loaded := LoadInto(buf, cell.data, UDT_AMOUNT_SIZE);
      assert loaded[0..16] == cell.data[0..16];
    }
  }

  /** Six cells under one lock. */
  predicate OneLock(tx: Tx, i: nat) {
    && i + 2 < |tx.inputs| && i + 2 < |tx.outputs|
    && tx.inputs[i + 1].lock.hash == tx.inputs[i].lock.hash == tx.inputs[i + 2].lock.hash
    && tx.outputs[i].lock.hash == tx.outputs[i + 1].lock.hash == tx.outputs[i + 2].lock.hash == tx.inputs[i].lock.hash
  }

  lemma TripleLocks(c: Consts, tx: Tx, t: nat, i: nat)
    requires t < |Leading(c, tx, 0)| && i == 3 * t
    ensures OneLock(tx, i)
  {
    TripleShows(c, tx, t, i);
  }

  /** The recorded reserves of a head are held in the two cells behind it. */
  predicate HeldBehind(owner: Script, cells: seq<Cell>, i: nat)
    requires |owner.args| == LOCK_ARGS_SIZE && i + 2 < |cells|
  {
    && OfAsset(Udt1(owner), cells[i + 1]) && OfAsset(Udt2(owner), cells[i + 2])
    && RecordedIn(cells[i]).r1 == Holding(Udt1(owner), cells[i + 1])
    && RecordedIn(cells[i]).r2 == Holding(Udt2(owner), cells[i + 2])
  }

  lemma BothHold(buf1: Buffer, buf2: Buffer, owner: Script, cells: seq<Cell>, i: nat, p: Pool)
    requires |owner.args| == LOCK_ARGS_SIZE && i + 2 < |cells|
    requires |cells[i].data| == UDTSWAP_DATA_SIZE && Recorded(cells[i].data) == p
    requires Whole(cells[i + 1]) && OfAsset(Udt1(owner), cells[i + 1]) && Locked(buf1, Udt1(owner), cells[i + 1]) == p.r1
    requires Whole(cells[i + 2]) && OfAsset(Udt2(owner), cells[i + 2]) && Locked(buf2, Udt2(owner), cells[i + 2]) == p.r2
    ensures HeldBehind(owner, cells, i)
  {
    WholeHolds(buf1, Udt1(owner), cells[i + 1]);
    WholeHolds(buf2, Udt2(owner), cells[i + 2]);
  }

  lemma OkHolds(c: Consts, owner: Script, tx: Tx, i: nat)
    requires TripleOk(c, tx, i) && tx.inputs[i].lock == owner && |owner.args| == LOCK_ARGS_SIZE
    requires Whole(tx.inputs[i + 1]) && Whole(tx.inputs[i + 2]) && Whole(tx.outputs[i + 1]) && Whole(tx.outputs[i + 2])
    ensures HeldBehind(owner, tx.inputs, i) && HeldBehind(owner, tx.outputs, i)
  {
    BothHold(c.At(i).before1, c.At(i).before2, owner, tx.inputs, i, Before(tx, i));
    BothHold(c.At(i).after1, c.At(i).after2, owner, tx.outputs, i, After(tx, i));
  }

  lemma TripleHolds(c: Consts, owner: Script, tx: Tx, t: nat, i: nat)
    requires Fitting(owner, tx) && t < |Leading(c, tx, 0)| && i == 3 * t
    requires OneLock(tx, i) && tx.inputs[i].lock.hash == owner.hash
    ensures HeldBehind(owner, tx.inputs, i) && HeldBehind(owner, tx.outputs, i)
  {
    LeadingAt(c, tx, 0, t, i);
    OkHolds(c, owner, tx, i);
  }

  lemma AfterHead(c: Consts, cells: seq<Cell>, n: nat, t: nat, i: nat)
    requires PoolsAtHeads(c, cells, n) && i == 3 * t && i + 2 < |cells|
    ensures !OfCode(c.poolCode, cells[i + 1]) && !OfCode(c.poolCode, cells[i + 2])
  {
    assert (i + 1) % 3 == 1 && (i + 2) % 3 == 2;
    assert IsPool(c, cells[i + 1]) == OfCode(c.poolCode, cells[i + 1]);
    assert IsPool(c, cells[i + 2]) == OfCode(c.poolCode, cells[i + 2]);
  }

  /** In the `t`-th triple of these inputs or outputs, what is locked is what is recorded. */
  ghost predicate BlockBalances(code: Hash, owner: Script, side: Side, cells: seq<Cell>, t: nat)
    requires |owner.args| == LOCK_ARGS_SIZE
  {
    3 * t + 2 < |cells| && ThreeBalance(code, owner, side, cells[3 * t], cells[3 * t + 1], cells[3 * t + 2])
  }

  lemma HeldIsBacked(c: Consts, owner: Script, cells: seq<Cell>, i: nat)
    requires |owner.args| == LOCK_ARGS_SIZE && i + 2 < |cells| && HeldBehind(owner, cells, i)
    requires cells[i].lock.hash == cells[i + 1].lock.hash == cells[i + 2].lock.hash == owner.hash
    requires IsPool(c, cells[i]) && !OfCode(c.poolCode, cells[i + 1]) && !OfCode(c.poolCode, cells[i + 2])
    ensures Backed(c.poolCode, owner, cells[i], cells[i + 1], cells[i + 2])
  {
  }

  lemma BlockBalance(c: Consts, owner: Script, side: Side, tx: Tx, cells: seq<Cell>, t: nat, i: nat)
    requires Fitting(owner, tx) && PairDiffers(owner) && t < |Leading(c, tx, 0)| && i == 3 * t
    requires (cells == tx.inputs || cells == tx.outputs) && PoolsAtHeads(c, cells, |Leading(c, tx, 0)|)
    requires i < |cells| && cells[i].lock.hash == owner.hash ==> IsPool(c, cells[i])
    ensures i + 2 < |cells| && ThreeBalance(c.poolCode, owner, side, cells[i], cells[i + 1], cells[i + 2])
  {
    TripleLocks(c, tx, t, i);
    if tx.inputs[i].lock.hash == owner.hash {
      TripleHolds(c, owner, tx, t, i);
      AfterHead(c, cells, |Leading(c, tx, 0)|, t, i);
      HeldIsBacked(c, owner, cells, i);
      BackedBalances(c.poolCode, owner, side, cells[i], cells[i + 1], cells[i + 2]);
    } else {
      ElsewhereBalances(c.poolCode, owner, side, cells[i], cells[i + 1], cells[i + 2]);
    }
  }

  /** Over the first `t` triples, what is locked is what is recorded. */
  lemma {:induction false} BlocksBalance(code: Hash, owner: Script, side: Side, cells: seq<Cell>, t: nat, m: nat)
    requires |owner.args| == LOCK_ARGS_SIZE && m == 3 * t
    requires forall j :: 0 <= j < t ==> BlockBalances(code, owner, side, cells, j)
    ensures m <= |cells|
    ensures SumOf(LockedOf(code, owner, side), owner.hash, cells[..m]) == SumOf(RecordedOf(code, side), owner.hash, cells[..m])
  {
    if t > 0 {
      assert BlockBalances(code, owner, side, cells, t - 1);
      BlocksBalance(code, owner, side, cells, t - 1, m - 3);
      SumOfThree(LockedOf(code, owner, side), owner.hash, cells, m - 3);
      SumOfThree(RecordedOf(code, side), owner.hash, cells, m - 3);
    }
  }

  lemma SumOfPrefix(what: What, hash: Hash, cells: seq<Cell>, m: nat)
    requires m <= |cells|
    ensures SumOf(what, hash, cells) >= SumOf(what, hash, cells[..m])
  {
    assert cells == cells[..m] + cells[m..];
    SumOfAppend(what, hash, cells[..m], cells[m..]);
  }

  lemma SumsFromBlocks(code: Hash, owner: Script, side: Side, cells: seq<Cell>, n: nat, m: nat)
    requires |owner.args| == LOCK_ARGS_SIZE && m == 3 * n
    requires forall j :: 0 <= j < n ==> BlockBalances(code, owner, side, cells, j)
    requires forall k :: m <= k < |cells| ==> cells[k].lock.hash != owner.hash
    ensures SumOf(LockedOf(code, owner, side), owner.hash, cells) == SumOf(RecordedOf(code, side), owner.hash, cells)
  {
    BlocksBalance(code, owner, side, cells, n, m);
    SumOfFront(LockedOf(code, owner, side), owner.hash, cells, m);
    SumOfFront(RecordedOf(code, side), owner.hash, cells, m);
  }

  /** From `m` on no cell is a pool's, so nothing more is recorded. */
  lemma RecordedInFront(code: Hash, side: Side, hash: Hash, cells: seq<Cell>, m: nat)
    requires m <= |cells| && forall k :: m <= k < |cells| ==> !OfCode(code, cells[k])
    ensures SumOf(RecordedOf(code, side), hash, cells) == SumOf(RecordedOf(code, side), hash, cells[..m])
  {
    forall k | m <= k < |cells| ensures CellWeight(RecordedOf(code, side), hash, cells[k]) == 0 {
      NotPoolNotRecorded(code, side, hash, cells[k]);
    }
    SumOfFront(RecordedOf(code, side), hash, cells, m);
  }

  lemma NotPoolNotRecorded(code: Hash, side: Side, hash: Hash, cell: Cell)
    requires !OfCode(code, cell)
    ensures CellWeight(RecordedOf(code, side), hash, cell) == 0
  {
  }

  lemma CoverFromBlocks(code: Hash, owner: Script, side: Side, cells: seq<Cell>, n: nat, m: nat)
    requires |owner.args| == LOCK_ARGS_SIZE && m == 3 * n
    requires forall j :: 0 <= j < n ==> BlockBalances(code, owner, side, cells, j)
    requires forall k :: m <= k < |cells| ==> !OfCode(code, cells[k])
    ensures SumOf(LockedOf(code, owner, side), owner.hash, cells) >= SumOf(RecordedOf(code, side), owner.hash, cells)
  {
    BlocksBalance(code, owner, side, cells, n, m);
    RecordedInFront(code, side, owner.hash, cells, m);
    SumOfPrefix(LockedOf(code, owner, side), owner.hash, cells, m);
  }

  lemma PastTriplesNotUnder(c: Consts, owner: Script, tx: Tx, k: nat)
    requires VaultAccepts(c, owner, tx) && 3 * |Leading(c, tx, 0)| <= k < |tx.inputs|
    ensures tx.inputs[k].lock.hash != owner.hash
  {
    if Under(tx.inputs, k, owner.hash) {
      UnderStandsInTriple(c, owner, tx, k, 3 * (k / 3));
    }
  }

  lemma PastTriplesNotPool(c: Consts, tx: Tx, cells: seq<Cell>, n: nat, k: nat)
    requires PoolsAtHeads(c, cells, n) && 3 * n <= k < |cells|
    ensures !OfCode(c.poolCode, cells[k])
  {
    assert IsPool(c, cells[k]) == OfCode(c.poolCode, cells[k]);
  }

  /** What a transaction takes from under the lock is what its inputs have recorded. */
  lemma InputsBalance(c: Consts, owner: Script, side: Side, tx: Tx)
    requires VaultAccepts(c, owner, tx) && Fitting(owner, tx) && PairDiffers(owner)
    ensures SumOf(LockedOf(c.poolCode, owner, side), owner.hash, tx.inputs)
         == SumOf(RecordedOf(c.poolCode, side), owner.hash, tx.inputs)
  {
    InputsUpdate(c, tx);
    UpdatesStandAtHeads(c, tx, tx.inputs);
    InputBlocks(c, owner, side, tx);
    forall k | 3 * |Leading(c, tx, 0)| <= k < |tx.inputs| ensures tx.inputs[k].lock.hash != owner.hash {
      PastTriplesNotUnder(c, owner, tx, k);
    }
    SumsFromBlocks(c.poolCode, owner, side, tx.inputs, |Leading(c, tx, 0)|, 3 * |Leading(c, tx, 0)|);
  }

  lemma InputBlocks(c: Consts, owner: Script, side: Side, tx: Tx)
    requires VaultAccepts(c, owner, tx) && Fitting(owner, tx) && PairDiffers(owner)
    requires PoolsAtHeads(c, tx.inputs, |Leading(c, tx, 0)|)
    ensures forall j :: 0 <= j < |Leading(c, tx, 0)| ==> BlockBalances(c.poolCode, owner, side, tx.inputs, j)
  {
    forall j | 0 <= j < |Leading(c, tx, 0)| ensures BlockBalances(c.poolCode, owner, side, tx.inputs, j) {
      InputBlockOf(c, owner, side, tx, j, 3 * j);
    }
  }

  lemma InputBlockOf(c: Consts, owner: Script, side: Side, tx: Tx, t: nat, i: nat)
    requires VaultAccepts(c, owner, tx) && Fitting(owner, tx) && PairDiffers(owner)
    requires t < |Leading(c, tx, 0)| && i == 3 * t && PoolsAtHeads(c, tx.inputs, |Leading(c, tx, 0)|)
    ensures BlockBalances(c.poolCode, owner, side, tx.inputs, t)
  {
    InputBlock(c, owner, side, tx, t, i);
    BlockOf(c.poolCode, owner, side, tx.inputs, t, i);
  }

  lemma HeadUnderIsPool(c: Consts, owner: Script, tx: Tx, t: nat, i: nat)
    requires VaultAccepts(c, owner, tx) && Under(tx.inputs, i, owner.hash) && i == 3 * t
    ensures IsPool(c, tx.inputs[i])
  {
    ThirdOf(i, t);
    UnderStandsInTriple(c, owner, tx, i, i);
  }

  lemma InputBlock(c: Consts, owner: Script, side: Side, tx: Tx, t: nat, i: nat)
    requires VaultAccepts(c, owner, tx) && Fitting(owner, tx) && PairDiffers(owner)
    requires t < |Leading(c, tx, 0)| && i == 3 * t && PoolsAtHeads(c, tx.inputs, |Leading(c, tx, 0)|)
    ensures i + 2 < |tx.inputs|
    ensures ThreeBalance(c.poolCode, owner, side, tx.inputs[i], tx.inputs[i + 1], tx.inputs[i + 2])
  {
    if Under(tx.inputs, i, owner.hash) {
      HeadUnderIsPool(c, owner, tx, t, i);
    }
    BlockBalance(c, owner, side, tx, tx.inputs, t, i);
  }

  lemma OutputBlock(c: Consts, owner: Script, side: Side, tx: Tx, t: nat, i: nat)
    requires Fitting(owner, tx) && PairDiffers(owner)
    requires t < |Leading(c, tx, 0)| && i == 3 * t && PoolsAtHeads(c, tx.outputs, |Leading(c, tx, 0)|)
    ensures i + 2 < |tx.outputs|
    ensures ThreeBalance(c.poolCode, owner, side, tx.outputs[i], tx.outputs[i + 1], tx.outputs[i + 2])
  {
    LeadingHead(c, tx, t);
    BlockBalance(c, owner, side, tx, tx.outputs, t, i);
  }

  lemma BlockOf(code: Hash, owner: Script, side: Side, cells: seq<Cell>, t: nat, i: nat)
    requires |owner.args| == LOCK_ARGS_SIZE && i == 3 * t && i + 2 < |cells|
    requires ThreeBalance(code, owner, side, cells[i], cells[i + 1], cells[i + 2])
    ensures BlockBalances(code, owner, side, cells, t)
  {
  }

  /** What updates put under the lock covers what their outputs record. */
  lemma UpdatesCover(c: Consts, owner: Script, side: Side, tx: Tx)
    requires Fitting(owner, tx) && PairDiffers(owner) && AllUpdateOn(c, tx, tx.outputs)
    ensures SumOf(LockedOf(c.poolCode, owner, side), owner.hash, tx.outputs)
         >= SumOf(RecordedOf(c.poolCode, side), owner.hash, tx.outputs)
  {
    UpdatesStandAtHeads(c, tx, tx.outputs);
    OutputBlocks(c, owner, side, tx);
    forall k | 3 * |Leading(c, tx, 0)| <= k < |tx.outputs| ensures !OfCode(c.poolCode, tx.outputs[k]) {
      PastTriplesNotPool(c, tx, tx.outputs, |Leading(c, tx, 0)|, k);
    }
    CoverFromBlocks(c.poolCode, owner, side, tx.outputs, |Leading(c, tx, 0)|, 3 * |Leading(c, tx, 0)|);
  }

  lemma OutputBlocks(c: Consts, owner: Script, side: Side, tx: Tx)
    requires Fitting(owner, tx) && PairDiffers(owner) && PoolsAtHeads(c, tx.outputs, |Leading(c, tx, 0)|)
    ensures forall j :: 0 <= j < |Leading(c, tx, 0)| ==> BlockBalances(c.poolCode, owner, side, tx.outputs, j)
  {
    forall j | 0 <= j < |Leading(c, tx, 0)| ensures BlockBalances(c.poolCode, owner, side, tx.outputs, j) {
      OutputBlockOf(c, owner, side, tx, j, 3 * j);
    }
  }

  lemma OutputBlockOf(c: Consts, owner: Script, side: Side, tx: Tx, t: nat, i: nat)
    requires Fitting(owner, tx) && PairDiffers(owner)
    requires t < |Leading(c, tx, 0)| && i == 3 * t && PoolsAtHeads(c, tx.outputs, |Leading(c, tx, 0)|)
    ensures BlockBalances(c.poolCode, owner, side, tx.outputs, t)
  {
    OutputBlock(c, owner, side, tx, t, i);
    BlockOf(c.poolCode, owner, side, tx.outputs, t, i);
  }

  // ----- creation

  /** A new pool's asset cells hold at least the default reserves it records. */
  lemma NewPoolHolds(c: Consts, tx: Tx)
    requires NewCellsOk(c, tx) && NewAmountsOk(c, tx) && Whole(tx.outputs[1]) && Whole(tx.outputs[2])
    ensures var udt1, udt2, p := Udt1(tx.outputs[0].lock), Udt2(tx.outputs[0].lock), RecordedIn(tx.outputs[0]);
      && udt1 != udt2 && OfAsset(udt1, tx.outputs[1]) && OfAsset(udt2, tx.outputs[2])
      && p.r1 <= Holding(udt1, tx.outputs[1]) && p.r2 <= Holding(udt2, tx.outputs[2])
  {
    var lock := tx.outputs[0].lock;
    LessIsStrict(Udt1(lock), Udt2(lock));
    CkbIsLeast(Udt1(lock));
    DepositHolds(Udt1(lock), tx.outputs[1], c.created, UDTSWAP_DATA_SIZE);
    DepositHolds(Udt2(lock), tx.outputs[2], LeftBuffer(c, Udt1(lock), tx.outputs[1]), LeftLength(Udt1(lock), tx.outputs[1]));
  }

  /** An amount read as the default is at most what the cell holds, though only eight bytes of it be loaded. */
  lemma DepositHolds(udt: Hash, cell: Cell, buf: Buffer, limit: nat)
    requires Whole(cell) && OfAsset(udt, cell) && limit >= 8 && Deposited(udt, cell, buf, limit) == Default(udt)
    ensures Default(udt) <= Holding(udt, cell)
  {
    if udt != CKB_HASH {
      var loaded := LoadInto(buf, cell.data, limit);
      LowByte(loaded);
      LowByte(cell.data);
      assert loaded[0] == cell.data[0];
      LowByteOne(loaded);
    }
  }

  lemma LowByte(data: seq<byte>)
    requires |data| >= UDT_AMOUNT_SIZE
    ensures Amount(data, 0) >= data[0] as int && (Amount(data, 0) - data[0] as int) % 0x100 == 0
  {
    assert data[0..16][0] == data[0];
  }

  lemma LowByteOne(data: seq<byte>)
    requires |data| >= UDT_AMOUNT_SIZE && Amount(data, 0) == 1
    ensures data[0] == 1
  {
    LowByte(data);
  }

  /** A pool cell in front, with its reserves held behind it. */
  predicate FrontHeld(code: Hash, owner: Script, h: Cell, x: Cell, y: Cell)
    requires |owner.args| == LOCK_ARGS_SIZE
  {
    h.lock.hash == owner.hash ==>
      && x.lock.hash == owner.hash == y.lock.hash && !OfCode(code, x) && !OfCode(code, y)
      && OfAsset(Udt1(owner), x) && OfAsset(Udt2(owner), y)
      && RecordedIn(h).r1 <= Holding(Udt1(owner), x) && RecordedIn(h).r2 <= Holding(Udt2(owner), y)
  }

  lemma FrontWeighs(code: Hash, owner: Script, side: Side, h: Cell, x: Cell, y: Cell)
    requires |owner.args| == LOCK_ARGS_SIZE && PairDiffers(owner) && FrontHeld(code, owner, h, x, y)
    ensures WeightOfThree(LockedOf(code, owner, side), owner.hash, h, x, y) >= CellWeight(RecordedOf(code, side), owner.hash, h)
  {
  }

  lemma FrontCovers(code: Hash, owner: Script, side: Side, cells: seq<Cell>)
    requires |owner.args| == LOCK_ARGS_SIZE && PairDiffers(owner) && 2 < |cells|
    requires forall k :: 0 < k < |cells| ==> !OfCode(code, cells[k])
    requires FrontHeld(code, owner, cells[0], cells[1], cells[2])
    ensures SumOf(LockedOf(code, owner, side), owner.hash, cells) >= SumOf(RecordedOf(code, side), owner.hash, cells)
  {
    FrontWeighs(code, owner, side, cells[0], cells[1], cells[2]);
    RecordedInFront(code, side, owner.hash, cells, 1);
    FrontSums(LockedOf(code, owner, side), RecordedOf(code, side), owner.hash, cells);
  }

  lemma FrontSums(held: What, recorded: What, hash: Hash, cells: seq<Cell>)
    requires 2 < |cells| && SumOf(recorded, hash, cells) == SumOf(recorded, hash, cells[..1])
    requires WeightOfThree(held, hash, cells[0], cells[1], cells[2]) >= CellWeight(recorded, hash, cells[0])
    ensures SumOf(held, hash, cells) >= SumOf(recorded, hash, cells)
  {
    assert cells[..1] == [cells[0]] && [cells[0]][1..] == [];
    assert cells[..0] == [] && cells[..0 + 3] == cells[..3];
    SumOfThree(held, hash, cells, 0);
    SumOfPrefix(held, hash, cells, 3);
  }

  lemma CreationCovers(c: Consts, owner: Script, side: Side, tx: Tx, at: nat)
    requires Fitting(owner, tx) && PairDiffers(owner) && AllAcceptOn(c, tx, tx.outputs)
    requires at < |tx.outputs| && IsPool(c, tx.outputs[at]) && CreateOk(c, tx, tx.outputs[at].typ.value)
    ensures SumOf(LockedOf(c.poolCode, owner, side), owner.hash, tx.outputs)
         >= SumOf(RecordedOf(c.poolCode, side), owner.hash, tx.outputs)
  {
    forall k | 0 < k < |tx.outputs| ensures !OfCode(c.poolCode, tx.outputs[k]) {
      if IsPool(c, tx.outputs[k]) {
        PoolOutputIsFirst(c, tx, tx.outputs[at].typ.value, k);
      }
    }
    if tx.outputs[0].lock.hash == owner.hash {
      NewPoolHolds(c, tx);
    }
    FrontCovers(c.poolCode, owner, side, tx.outputs);
  }

  lemma OutputsCover(c: Consts, owner: Script, side: Side, tx: Tx)
    requires Fitting(owner, tx) && PairDiffers(owner) && AllAcceptOn(c, tx, tx.outputs)
    ensures SumOf(LockedOf(c.poolCode, owner, side), owner.hash, tx.outputs)
         >= SumOf(RecordedOf(c.poolCode, side), owner.hash, tx.outputs)
  {
    if k :| 0 <= k < |tx.outputs| && IsPool(c, tx.outputs[k]) && CreateOk(c, tx, tx.outputs[k].typ.value) {
      CreationCovers(c, owner, side, tx, k);
    } else {
      UpdatesCover(c, owner, side, tx);
    }
  }

  // ----- one posting

  /** Locked less recorded, of one asset. */
  function Surplus(code: Hash, owner: Script, side: Side, entries: seq<Entry>): int
    requires |owner.args| == LOCK_ARGS_SIZE
  {
    Sum(LockedOf(code, owner, side), owner.hash, entries) - Sum(RecordedOf(code, side), owner.hash, entries)
  }

  ghost predicate VaultTurn(c: Consts, owner: Script, entries: seq<Entry>, p: Posting) {
    CanPost(entries, p) && Fitting(owner, p.tx) && exists d :: SameCodes(c, d) && VaultAccepts(d, owner, p.tx)
  }

  /** No posting lowers the surplus. */
  lemma SurplusKept(c: Consts, owner: Script, side: Side, entries: seq<Entry>, p: Posting)
    requires VaultTurn(c, owner, entries, p) && PairDiffers(owner)
    ensures Surplus(c.poolCode, owner, side, Post(entries, p)) >= Surplus(c.poolCode, owner, side, entries)
  {
    var d :| SameCodes(c, d) && VaultAccepts(d, owner, p.tx);
    InputsBalance(d, owner, side, p.tx);
    OutputsCover(d, owner, side, p.tx);
    Posted(LockedOf(c.poolCode, owner, side), owner.hash, entries, p);
    Posted(RecordedOf(c.poolCode, side), owner.hash, entries, p);
  }

  // ----- locks for one asset twice

  lemma {:induction false} ZeroSum(what: What, hash: Hash, cells: seq<Cell>, k: nat)
    requires k < |cells| && SumOf(what, hash, cells) == 0
    ensures CellWeight(what, hash, cells[k]) == 0
  {
    if k > 0 {
      ZeroSum(what, hash, cells[1..], k - 1);
    }
  }

  /** An output that is a pool's cell under the lock either is new or follows on such a cell among the inputs. */
  lemma PoolOutputUnder(c: Consts, owner: Script, tx: Tx, k: nat)
    requires VaultAccepts(c, owner, tx) && Fitting(owner, tx)
    requires k < |tx.outputs| && IsPool(c, tx.outputs[k]) && tx.outputs[k].lock.hash == owner.hash
    ensures PairDiffers(owner) || (k < |tx.inputs| && IsPool(c, tx.inputs[k]) && tx.inputs[k].lock.hash == owner.hash)
  {
    var cur := tx.outputs[k].typ.value;
    if CreateOk(c, tx, cur) {
      PoolOutputIsFirst(c, tx, cur, k);
      LessIsStrict(Udt1(owner), Udt2(owner));
    } else {
      var t := AcceptedUpdate(c, tx, cur);
      assert HasType(tx.outputs[k], cur.hash);
      TripleLocks(c, tx, t, k);
      HeadUnderIsPool(c, owner, tx, t, k);
    }
  }

  lemma NoPoolOutput(c: Consts, owner: Script, tx: Tx, k: nat)
    requires VaultAccepts(c, owner, tx) && Fitting(owner, tx) && !PairDiffers(owner) && k < |tx.outputs|
    requires SumOf(PoolsUnder(c.poolCode), owner.hash, tx.inputs) == 0
    ensures CellWeight(PoolsUnder(c.poolCode), owner.hash, tx.outputs[k]) == 0
  {
    if IsPool(c, tx.outputs[k]) && tx.outputs[k].lock.hash == owner.hash {
      PoolOutputUnder(c, owner, tx, k);
      ZeroSum(PoolsUnder(c.poolCode), owner.hash, tx.inputs, k);
    }
  }

  lemma NoPoolOutputs(c: Consts, owner: Script, tx: Tx)
    requires VaultAccepts(c, owner, tx) && Fitting(owner, tx) && !PairDiffers(owner)
    requires SumOf(PoolsUnder(c.poolCode), owner.hash, tx.inputs) == 0
    ensures SumOf(PoolsUnder(c.poolCode), owner.hash, tx.outputs) == 0
  {
    forall k | 0 <= k < |tx.outputs| ensures CellWeight(PoolsUnder(c.poolCode), owner.hash, tx.outputs[k]) == 0 {
      NoPoolOutput(c, owner, tx, k);
    }
    SumOfZeros(PoolsUnder(c.poolCode), owner.hash, tx.outputs);
  }

  /** Under a lock for one asset twice there is never a pool. */
  lemma NoPoolsAppear(c: Consts, owner: Script, entries: seq<Entry>, p: Posting)
    requires VaultTurn(c, owner, entries, p) && !PairDiffers(owner)
    requires Sum(PoolsUnder(c.poolCode), owner.hash, entries) == 0
    ensures Sum(PoolsUnder(c.poolCode), owner.hash, Post(entries, p)) == 0
  {
    var d :| SameCodes(c, d) && VaultAccepts(d, owner, p.tx);
    Posted(PoolsUnder(c.poolCode), owner.hash, entries, p);
    NoPoolOutputs(d, owner, p.tx);
  }

  lemma {:induction false} NothingRecorded(code: Hash, side: Side, hash: Hash, entries: seq<Entry>)
    requires Sum(PoolsUnder(code), hash, entries) == 0
    ensures Sum(RecordedOf(code, side), hash, entries) == 0
  {
    if entries != [] {
      NothingRecorded(code, side, hash, entries[1..]);
    }
  }

  // ----- whole chains

  /** Ledgers from one without pools under the lock on, each got by a posting that pool scripts and lock accept. */
  ghost predicate VaultChain(c: Consts, owner: Script, ledgers: seq<seq<Entry>>, postings: seq<Posting>) {
    && |ledgers| == |postings| + 1 && |owner.args| == LOCK_ARGS_SIZE
    && Sum(PoolsUnder(c.poolCode), owner.hash, ledgers[0]) == 0
    && forall i {:trigger postings[i]} :: 0 <= i < |postings| ==>
         VaultTurn(c, owner, ledgers[i], postings[i]) && ledgers[i + 1] == Post(ledgers[i], postings[i])
  }

  /** Over every chain the surplus of either asset never falls. */
  lemma {:induction false} SurplusNeverFalls(
    c: Consts, owner: Script, side: Side, ledgers: seq<seq<Entry>>, postings: seq<Posting>, i: nat, j: nat)
    requires VaultChain(c, owner, ledgers, postings) && PairDiffers(owner) && i <= j < |ledgers|
    ensures Surplus(c.poolCode, owner, side, ledgers[j]) >= Surplus(c.poolCode, owner, side, ledgers[i])
  {
    if i < j {
      SurplusNeverFalls(c, owner, side, ledgers, postings, i, j - 1);
      SurplusKept(c, owner, side, ledgers[j - 1], postings[j - 1]);
    }
  }

  lemma {:induction false} NeverAnyPools(
    c: Consts, owner: Script, ledgers: seq<seq<Entry>>, postings: seq<Posting>, i: nat)
    requires VaultChain(c, owner, ledgers, postings) && !PairDiffers(owner) && i < |ledgers|
    ensures Sum(PoolsUnder(c.poolCode), owner.hash, ledgers[i]) == 0
  {
    if i > 0 {
      NeverAnyPools(c, owner, ledgers, postings, i - 1);
      NoPoolsAppear(c, owner, ledgers[i - 1], postings[i - 1]);
    }
  }

  /**
   * Solvency: at every point of every chain, what is locked of an asset under a pool lock is at least what all the
   * live pools under that lock have recorded of it.
   */
  lemma AlwaysSolvent(
    c: Consts, owner: Script, side: Side, ledgers: seq<seq<Entry>>, postings: seq<Posting>, i: nat)
    requires VaultChain(c, owner, ledgers, postings) && i < |ledgers|
    ensures Sum(LockedOf(c.poolCode, owner, side), owner.hash, ledgers[i])
         >= Sum(RecordedOf(c.poolCode, side), owner.hash, ledgers[i])
  {
    if PairDiffers(owner) {
      SurplusNeverFalls(c, owner, side, ledgers, postings, 0, i);
      NothingRecorded(c.poolCode, side, owner.hash, ledgers[0]);
    } else {
      NeverAnyPools(c, owner, ledgers, postings, i);
      NothingRecorded(c.poolCode, side, owner.hash, ledgers[i]);
    }
  }
}
