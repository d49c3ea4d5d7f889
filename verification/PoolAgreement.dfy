/** What the pool scripts of one transaction guarantee together, each having run on its own. */
module PoolAgreement {
  import opened Transaction
  import opened PoolRules

  // ----- one script's scan

  /** A scan that ends has found the own pool, unless it had already, and that pool's step is valid. */
  lemma {:induction false} ScanFinds(ts: seq<Triple>, hash: Hash, t: nat, success: bool) returns (k: nat)
    requires t <= |ts| && Scan(ts, hash, t, success).Some?
    ensures t <= Scan(ts, hash, t, success).value <= |ts|
    ensures success || (t <= k < |ts| && ts[k].pool == hash && ts[k].valid)
    decreases |ts| - t
  {
    k := t;
    match TurnOf(ts, t, hash) {
      case OtherPool => k := ScanFinds(ts, hash, t + 1, success);
      case Swapped => var _ := ScanFinds(ts, hash, t + 1, true);
      case _ =>
    }
  }

  /** Liquidity changes at the first triple only. */
  ghost predicate OnlyFirstChanges(ts: seq<Triple>) {
    forall k :: 0 < k < |ts| && ts[k].valid ==> ts[k].kept
  }

  /** Past the first triple a scan can only end at the end. */
  lemma {:induction false} ScanEnd(ts: seq<Triple>, hash: Hash, t: nat, success: bool)
    requires 0 < t <= |ts| && OnlyFirstChanges(ts) && Scan(ts, hash, t, success).Some?
    ensures Scan(ts, hash, t, success).value == |ts|
    decreases |ts| - t
  {
    match TurnOf(ts, t, hash) {
      case OtherPool => ScanEnd(ts, hash, t + 1, success);
      case Swapped => ScanEnd(ts, hash, t + 1, true);
      case _ =>
    }
  }

  /** The pool `hash` has its liquidity changed, at the first triple. */
  predicate ChangesLiquidity(ts: seq<Triple>, hash: Hash) {
    ts != [] && ts[0] == Triple(hash, true, false)
  }

  lemma ScanFromStart(ts: seq<Triple>, hash: Hash)
    requires OnlyFirstChanges(ts) && Scan(ts, hash, 0, false).Some?
    ensures ts != []
    ensures Scan(ts, hash, 0, false).value == if ChangesLiquidity(ts, hash) then 1 else |ts|
  {
    match TurnOf(ts, 0, hash) {
      case OtherPool => ScanEnd(ts, hash, 1, false);
      case Swapped => ScanEnd(ts, hash, 1, true);
      case _ =>
    }
  }

  lemma LaterStepsSwap(c: Consts, tx: Tx)
    ensures OnlyFirstChanges(Leading(c, tx, 0))
  {
    var ts := Leading(c, tx, 0);
    forall k | 0 < k < |ts| && ts[k].valid ensures ts[k].kept {
      LeadingAt(c, tx, 0, k, 3 * k);
      LaterStepSwaps(c, tx, 3 * k);
    }
  }

  lemma LaterStepSwaps(c: Consts, tx: Tx, i: nat)
    requires i > 0 && TripleOk(c, tx, i) && TripleAt(c, tx, i).valid
    ensures TripleAt(c, tx, i).kept
  {
  }

  // ----- what one accepting script knows

  /** Recorded reserves are what is locked beside the pool cell, before and after. */
  ghost predicate ReservesLocked(c: Consts, tx: Tx, i: nat)
    requires LocksOk(c, tx, i) && DataOk(tx, i)
  {
    var udt1 := Udt1(tx.inputs[i].lock);
    var udt2 := Udt2(tx.inputs[i].lock);
    && Before(tx, i).r1 == Locked(c.At(i).before1, udt1, tx.inputs[i + 1])
    && After(tx, i).r1 == Locked(c.At(i).after1, udt1, tx.outputs[i + 1])
    && Before(tx, i).r2 == Locked(c.At(i).before2, udt2, tx.inputs[i + 2])
    && After(tx, i).r2 == Locked(c.At(i).after2, udt2, tx.outputs[i + 2])
  }

  predicate IsPool(c: Consts, cell: Cell) {
    cell.typ.Some? && cell.typ.value.codeHash == c.poolCode
  }

  lemma HeadTypes(c: Consts, tx: Tx, i: nat)
    requires TripleOk(c, tx, i)
    ensures HasType(tx.inputs[i], TripleAt(c, tx, i).pool) && HasType(tx.outputs[i], TripleAt(c, tx, i).pool)
    ensures tx.outputs[i].typ.value.codeHash == c.poolCode
    ensures i + 2 < |tx.inputs| && i + 2 < |tx.outputs|
  {
  }

  /** One input and one output have type `hash`, both at index `at`. */
  ghost predicate OnlyAt(tx: Tx, hash: Hash, at: nat) {
    && at < |tx.inputs| && at < |tx.outputs|
    && (forall j :: 0 <= j < |tx.inputs| ==> (HasType(tx.inputs[j], hash) <==> j == at))
    && (forall j :: 0 <= j < |tx.outputs| ==> (HasType(tx.outputs[j], hash) <==> j == at))
  }

  lemma OnlyInGroup(tx: Tx, hash: Hash, at: nat)
    requires |TypeGroup(tx.inputs, hash)| == 1 && |TypeGroup(tx.outputs, hash)| == 1
    requires at < |tx.inputs| && at < |tx.outputs| && HasType(tx.inputs[at], hash) && HasType(tx.outputs[at], hash)
    ensures OnlyAt(tx, hash, at)
  {
    var atIn := GroupOfOne(tx.inputs, hash);
    var atOut := GroupOfOne(tx.outputs, hash);
  }

  /** The head cells of the `k`-th leading triple, input and output, carry its pool's type. */
  lemma LeadingHead(c: Consts, tx: Tx, k: nat)
    requires k < |Leading(c, tx, 0)|
    ensures var pool := Leading(c, tx, 0)[k].pool;
      && 3 * k < |tx.inputs| && 3 * k < |tx.outputs|
      && HasType(tx.inputs[3 * k], pool) && HasType(tx.outputs[3 * k], pool)
      && IsPool(c, tx.outputs[3 * k])
  {
    LeadingAt(c, tx, 0, k, 3 * k);
    HeadTypes(c, tx, 3 * k);
  }

  /**
   * A script that accepts a transaction other than a creation finds its pool at exactly one triple, and that
   * triple's step is valid.
   */
  lemma AcceptedUpdate(c: Consts, tx: Tx, cur: Script) returns (k: nat)
    requires UpdateOk(c, tx, cur)
    ensures k < |Leading(c, tx, 0)| && Leading(c, tx, 0)[k].pool == cur.hash && Leading(c, tx, 0)[k].valid
    ensures OnlyAt(tx, cur.hash, 3 * k)
  {
    k := ScanFinds(Leading(c, tx, 0), cur.hash, 0, false);
    LeadingHead(c, tx, k);
    OnlyInGroup(tx, cur.hash, 3 * k);
  }

  /** What a leading triple shows: a reading of recorded reserves that are locked beside the pool cell. */
  lemma TripleShows(c: Consts, tx: Tx, k: nat, i: nat)
    requires k < |Leading(c, tx, 0)| && i == 3 * k
    ensures TripleOk(c, tx, i) && Leading(c, tx, 0)[k] == TripleAt(c, tx, i)
    ensures ReservesLocked(c, tx, i)
  {
    LeadingAt(c, tx, 0, k, i);
    RecordedIsLocked(c, tx, i);
  }

  lemma RecordedIsLocked(c: Consts, tx: Tx, i: nat)
    requires TripleOk(c, tx, i)
    ensures ReservesLocked(c, tx, i)
  {
  }

  // ----- several scripts on one transaction

  /** An accepting script has counted all leading triples. */
  lemma CountsAll(c: Consts, tx: Tx, cur: Script)
    requires UpdateOk(c, tx, cur)
    ensures var n := |Leading(c, tx, 0)|;
      n > 0 && Scan(Leading(c, tx, 0), cur.hash, 0, false) == Some(n) && FeeOk(c, tx, 3 * n, n)
    ensures var n := |Leading(c, tx, 0)|;
      && 3 * n < |tx.outputs| && tx.outputs[3 * n].typ.None? && tx.outputs[3 * n].lock.hash == c.feeLock
      && tx.outputs[3 * n].capacity == 6100000000 * n
  {
    LaterStepsSwap(c, tx);
    ScanFromStart(Leading(c, tx, 0), cur.hash);
    LeadingAt(c, tx, 0, 1, 3);
    if ChangesLiquidity(Leading(c, tx, 0), cur.hash) {
      FeeEndsTriples(c, tx, 1);
    }
  }

  lemma FeeEndsTriples(c: Consts, tx: Tx, n: nat)
    requires FeeOk(c, tx, 3 * n, n)
    ensures !TripleOk(c, tx, 3 * n)
  {
  }

  /** All accepting scripts count the same number of pools, and so ask for the same fee in the same cell. */
  lemma SameFeeCell(c: Consts, tx: Tx, a: Script, b: Script)
    requires UpdateOk(c, tx, a) && UpdateOk(c, tx, b)
    ensures Scan(Leading(c, tx, 0), a.hash, 0, false) == Scan(Leading(c, tx, 0), b.hash, 0, false)
  {
    CountsAll(c, tx, a);
    CountsAll(c, tx, b);
  }

  /** No two scripts accept when one of them creates a pool and the other updates one. */
  lemma NoCreationBesideUpdate(c: Consts, tx: Tx, a: Script, b: Script)
    requires UpdateOk(c, tx, b)
    ensures !CreateOk(c, tx, a)
  {
    CountsAll(c, tx, b);
    LeadingAt(c, tx, 0, 0, 0);
    HeadTypes(c, tx, 0);
    if HasType(tx.inputs[0], a.hash) {
      GroupHas(tx.inputs, a.hash, 0);
    }
  }

  // ----- classification

  predicate SameIfHash(a: Option<Script>, b: Option<Script>) {
    a.Some? && b.Some? && a.value.hash == b.value.hash ==> a == b
  }

  /** Among the types of these cells, a hash stands for one script only. */
  ghost predicate HashesIdentify(cells: seq<Cell>) {
    forall i, j :: 0 <= i < |cells| && 0 <= j < |cells| ==> SameIfHash(cells[i].typ, cells[j].typ)
  }

  ghost predicate AllAcceptOn(c: Consts, tx: Tx, cells: seq<Cell>) {
    forall k :: 0 <= k < |cells| && IsPool(c, cells[k]) ==> Accepts(c, tx, cells[k].typ.value)
  }

  /** Every pool script that the transaction carries accepts it. */
  ghost predicate AllAccept(c: Consts, tx: Tx) {
    AllAcceptOn(c, tx, tx.inputs) && AllAcceptOn(c, tx, tx.outputs)
  }

  ghost predicate NoPools(c: Consts, cells: seq<Cell>) {
    forall k :: 0 <= k < |cells| ==> !IsPool(c, cells[k])
  }

  /** One new pool, at output 0, and no other pool cell anywhere. */
  ghost predicate IsCreation(c: Consts, tx: Tx) {
    && tx.outputs != [] && IsPool(c, tx.outputs[0]) && CreateOk(c, tx, tx.outputs[0].typ.value)
    && NoPools(c, tx.inputs) && NoPools(c, tx.outputs[1..])
  }

  /** Pool cells stand only at the heads of the first `n` triples. */
  ghost predicate PoolsAtHeads(c: Consts, cells: seq<Cell>, n: nat) {
    forall i :: 0 <= i < |cells| && IsPool(c, cells[i]) ==> i % 3 == 0 && i / 3 < n
  }

  /** The leading triples are of different pools, each makes a valid step, and no pool stands elsewhere. */
  ghost predicate PoolsInTriples(c: Consts, tx: Tx) {
    var ts := Leading(c, tx, 0);
    && ts != [] && FeeOk(c, tx, 3 * |ts|, |ts|)
    && PoolsAtHeads(c, tx.inputs, |ts|) && PoolsAtHeads(c, tx.outputs, |ts|)
    && (forall k :: 0 <= k < |ts| ==> ts[k].valid)
    && (forall j, k :: 0 <= j < k < |ts| ==> ts[j].pool != ts[k].pool)
  }

  /** One pool, in the only triple, adds or removes liquidity. */
  ghost predicate IsLiquidityChange(c: Consts, tx: Tx) {
    PoolsInTriples(c, tx) && |Leading(c, tx, 0)| == 1 && !Leading(c, tx, 0)[0].kept
  }

  /** One or more pools swap, one in each leading triple. */
  ghost predicate IsSwaps(c: Consts, tx: Tx) {
    PoolsInTriples(c, tx) && forall k :: 0 <= k < |Leading(c, tx, 0)| ==> Leading(c, tx, 0)[k].kept
  }

  /** Under distinct hashes both head cells have one and the same pool script. */
  lemma LeadingPool(c: Consts, tx: Tx, k: nat)
    requires HashesIdentify(tx.inputs + tx.outputs) && k < |Leading(c, tx, 0)|
    ensures 3 * k < |tx.inputs| && 3 * k < |tx.outputs| && tx.inputs[3 * k].typ == tx.outputs[3 * k].typ
    ensures IsPool(c, tx.inputs[3 * k]) && tx.inputs[3 * k].typ.value.hash == Leading(c, tx, 0)[k].pool
  {
    LeadingHead(c, tx, k);
    SameScript(tx.inputs, tx.outputs, 3 * k, 3 * k);
  }

  lemma SameScript(a: seq<Cell>, b: seq<Cell>, i: nat, j: nat)
    requires HashesIdentify(a + b) && i < |a| && j < |b|
    ensures SameIfHash(a[i].typ, b[j].typ)
  {
    var all := a + b;
    assert all[i] == a[i] && all[|a| + j] == b[j];
  }

  lemma ThirdOf(i: nat, k: nat)
    requires i == 3 * k
    ensures i % 3 == 0 && i / 3 == k
  {
  }

  /** A pool script that accepts beside a creation is the created pool's. */
  lemma PoolBesideCreation(c: Consts, tx: Tx, a: Script, b: Script)
    requires CreateOk(c, tx, a) && Accepts(c, tx, b)
    ensures a.hash == b.hash
  {
    if UpdateOk(c, tx, b) {
      NoCreationBesideUpdate(c, tx, a, b);
    }
  }

  lemma NoPoolInputs(c: Consts, tx: Tx, a: Script)
    requires AllAcceptOn(c, tx, tx.inputs) && CreateOk(c, tx, a)
    ensures NoPools(c, tx.inputs)
  {
    GroupEmpty(tx.inputs, a.hash);
    forall j | 0 <= j < |tx.inputs| ensures !IsPool(c, tx.inputs[j]) {
      if IsPool(c, tx.inputs[j]) {
        PoolBesideCreation(c, tx, a, tx.inputs[j].typ.value);
      }
    }
  }

  /** Beside a creation, pool outputs are of the created pool, and that has but one cell. */
  lemma PoolOutputIsFirst(c: Consts, tx: Tx, a: Script, j: nat)
    requires AllAcceptOn(c, tx, tx.outputs) && CreateOk(c, tx, a)
    requires j < |tx.outputs| && IsPool(c, tx.outputs[j])
    ensures j == 0
  {
    var first := GroupOfOne(tx.outputs, a.hash);
    PoolBesideCreation(c, tx, a, tx.outputs[j].typ.value);
    assert HasType(tx.outputs[0], a.hash) && HasType(tx.outputs[j], a.hash);
  }

  lemma CreationIsAlone(c: Consts, tx: Tx, at: nat)
    requires AllAccept(c, tx)
    requires at < |tx.outputs| && IsPool(c, tx.outputs[at]) && CreateOk(c, tx, tx.outputs[at].typ.value)
    ensures IsCreation(c, tx)
  {
    var a := tx.outputs[at].typ.value;
    NoPoolInputs(c, tx, a);
    PoolOutputIsFirst(c, tx, a, at);
    forall j | 0 <= j < |tx.outputs| - 1 ensures !IsPool(c, tx.outputs[1..][j]) {
      assert tx.outputs[1..][j] == tx.outputs[j + 1];
      if IsPool(c, tx.outputs[j + 1]) {
        PoolOutputIsFirst(c, tx, a, j + 1);
      }
    }
  }

  ghost predicate AllUpdateOn(c: Consts, tx: Tx, cells: seq<Cell>) {
    forall k :: 0 <= k < |cells| && IsPool(c, cells[k]) ==> UpdateOk(c, tx, cells[k].typ.value)
  }

  lemma UpdatesStandAtHeads(c: Consts, tx: Tx, cells: seq<Cell>)
    requires AllUpdateOn(c, tx, cells) && (cells == tx.inputs || cells == tx.outputs)
    ensures PoolsAtHeads(c, cells, |Leading(c, tx, 0)|)
  {
    forall i | 0 <= i < |cells| && IsPool(c, cells[i]) ensures i % 3 == 0 && i / 3 < |Leading(c, tx, 0)| {
      var k := AcceptedUpdate(c, tx, cells[i].typ.value);
      assert HasType(cells[i], cells[i].typ.value.hash);
      ThirdOf(i, k);
    }
  }

  /** Every leading triple is some pool's, so that pool's script has validated it. */
  lemma LeadingIsValid(c: Consts, tx: Tx, k: nat)
    requires HashesIdentify(tx.inputs + tx.outputs) && AllUpdateOn(c, tx, tx.inputs)
    requires k < |Leading(c, tx, 0)|
    ensures Leading(c, tx, 0)[k].valid && OnlyAt(tx, Leading(c, tx, 0)[k].pool, 3 * k)
  {
    LeadingPool(c, tx, k);
    var cur := tx.inputs[3 * k].typ.value;
    var at := AcceptedUpdate(c, tx, cur);
    assert HasType(tx.inputs[3 * k], cur.hash);
  }

  /** The leading triples all make valid steps, of different pools. */
  lemma LeadingAreValid(c: Consts, tx: Tx)
    requires HashesIdentify(tx.inputs + tx.outputs) && AllUpdateOn(c, tx, tx.inputs)
    ensures var ts := Leading(c, tx, 0);
      && (forall k :: 0 <= k < |ts| ==> ts[k].valid)
      && (forall j, k :: 0 <= j < k < |ts| ==> ts[j].pool != ts[k].pool)
  {
    var ts := Leading(c, tx, 0);
    forall k | 0 <= k < |ts| ensures ts[k].valid {
      LeadingIsValid(c, tx, k);
    }
    forall j, k | 0 <= j < k < |ts| ensures ts[j].pool != ts[k].pool {
      LeadingIsValid(c, tx, j);
      LeadingHead(c, tx, k);
      assert 3 * j != 3 * k;
    }
  }

  /** A pool's liquidity can change only where it is the only pool. */
  lemma LiquidityChangeIsAlone(c: Consts, tx: Tx)
    requires HashesIdentify(tx.inputs + tx.outputs) && AllUpdateOn(c, tx, tx.inputs)
    requires PoolsInTriples(c, tx)
    ensures IsLiquidityChange(c, tx) || IsSwaps(c, tx)
  {
    var ts := Leading(c, tx, 0);
    LaterStepsSwap(c, tx);
    if !ts[0].kept {
      LeadingPool(c, tx, 0);
      CountsAll(c, tx, tx.inputs[0].typ.value);
      ScanFromStart(ts, ts[0].pool);
    }
  }

  /** Where the pools of a transaction without creation stand. */
  lemma UpdatesFillTriples(c: Consts, tx: Tx, cur: Script)
    requires HashesIdentify(tx.inputs + tx.outputs)
    requires AllUpdateOn(c, tx, tx.inputs) && AllUpdateOn(c, tx, tx.outputs) && UpdateOk(c, tx, cur)
    ensures IsLiquidityChange(c, tx) || IsSwaps(c, tx)
  {
    CountsAll(c, tx, cur);
    UpdatesStandAtHeads(c, tx, tx.inputs);
    UpdatesStandAtHeads(c, tx, tx.outputs);
    LeadingAreValid(c, tx);
    LiquidityChangeIsAlone(c, tx);
  }

  /**
   * A transaction that carries pools and is accepted by each of their scripts is one creation, one liquidity
   * change, or swaps of one or more pools in the leading triples.
   */
  lemma Classified(c: Consts, tx: Tx)
    requires HashesIdentify(tx.inputs + tx.outputs)
    requires AllAccept(c, tx) && !(NoPools(c, tx.inputs) && NoPools(c, tx.outputs))
    ensures IsCreation(c, tx) || IsLiquidityChange(c, tx) || IsSwaps(c, tx)
  {
    if k :| 0 <= k < |tx.outputs| && IsPool(c, tx.outputs[k]) && CreateOk(c, tx, tx.outputs[k].typ.value) {
      CreationIsAlone(c, tx, k);
    } else {
      forall k | 0 <= k < |tx.inputs| && IsPool(c, tx.inputs[k]) ensures UpdateOk(c, tx, tx.inputs[k].typ.value) {
        InputsAreNotCreated(c, tx, k);
      }
      if k :| 0 <= k < |tx.inputs| && IsPool(c, tx.inputs[k]) {
        UpdatesFillTriples(c, tx, tx.inputs[k].typ.value);
      } else {
        var k :| 0 <= k < |tx.outputs| && IsPool(c, tx.outputs[k]);
        UpdatesFillTriples(c, tx, tx.outputs[k].typ.value);
      }
    }
  }

  lemma InputsAreNotCreated(c: Consts, tx: Tx, k: nat)
    requires k < |tx.inputs| && tx.inputs[k].typ.Some?
    ensures !CreateOk(c, tx, tx.inputs[k].typ.value)
  {
    GroupHas(tx.inputs, tx.inputs[k].typ.value.hash, k);
  }

  /** The three shapes exclude each other. */
  lemma ShapesExclude(c: Consts, tx: Tx)
    requires HashesIdentify(tx.inputs + tx.outputs)
    ensures !(IsCreation(c, tx) && IsLiquidityChange(c, tx))
    ensures !(IsCreation(c, tx) && IsSwaps(c, tx))
    ensures !(IsLiquidityChange(c, tx) && IsSwaps(c, tx))
  {
    if PoolsInTriples(c, tx) {
      LeadingPool(c, tx, 0);
    }
  }

  // ----- and conversely

  /** A type that stands in one cell only is a group of one. */
  lemma {:induction false} OneIsGroup(cells: seq<Cell>, hash: Hash, at: nat)
    requires at < |cells|
    requires forall k :: 0 <= k < |cells| ==> (HasType(cells[k], hash) <==> k == at)
    ensures |TypeGroup(cells, hash)| == 1
  {
    assert forall k :: 0 <= k < |cells| - 1 ==> cells[1..][k] == cells[k + 1];
    if at == 0 {
      GroupEmpty(cells[1..], hash);
    } else {
      OneIsGroup(cells[1..], hash, at - 1);
    }
  }

  lemma PoolIsOnce(c: Consts, tx: Tx, k: nat)
    requires HashesIdentify(tx.inputs + tx.outputs) && PoolsInTriples(c, tx)
    requires k < |Leading(c, tx, 0)|
    ensures OnlyAt(tx, Leading(c, tx, 0)[k].pool, 3 * k)
  {
    LeadingHead(c, tx, k);
    var hash := Leading(c, tx, 0)[k].pool;
    forall j | 0 <= j < |tx.inputs| ensures HasType(tx.inputs[j], hash) <==> j == 3 * k {
      SameScript(tx.inputs, tx.outputs, j, 3 * k);
      PoolIsAtHead(c, tx, k, j);
    }
    forall j | 0 <= j < |tx.outputs| ensures HasType(tx.outputs[j], hash) <==> j == 3 * k {
      LeadingPool(c, tx, k);
      SameScript(tx.inputs, tx.outputs, 3 * k, j);
      PoolIsAtHead(c, tx, k, j);
    }
  }

  /** A head cell, `j`-th of all, that has the type of triple `k` is that triple's. */
  lemma PoolIsAtHead(c: Consts, tx: Tx, k: nat, j: nat)
    requires PoolsInTriples(c, tx) && k < |Leading(c, tx, 0)|
    ensures j % 3 == 0 && j / 3 < |Leading(c, tx, 0)| && j < |tx.inputs| && HasType(tx.inputs[j], Leading(c, tx, 0)[k].pool)
            ==> j == 3 * k
    ensures j % 3 == 0 && j / 3 < |Leading(c, tx, 0)| && j < |tx.outputs| && HasType(tx.outputs[j], Leading(c, tx, 0)[k].pool)
            ==> j == 3 * k
  {
    if j % 3 == 0 && j / 3 < |Leading(c, tx, 0)| {
      LeadingHead(c, tx, j / 3);
      assert 3 * (j / 3) == j;
    }
  }

  /** Over triples that all swap, the scan of the pool at `at` runs to the end. */
  lemma {:induction false} SwapsAreScanned(ts: seq<Triple>, at: nat, t: nat)
    requires at < |ts| && t <= |ts|
    requires forall k :: 0 <= k < |ts| ==> ts[k].valid && ts[k].kept && (ts[k].pool == ts[at].pool <==> k == at)
    ensures Scan(ts, ts[at].pool, t, at < t) == Some(|ts|)
    decreases |ts| - t
  {
    if t < |ts| {
      SwapsAreScanned(ts, at, t + 1);
    }
  }

  lemma ShapedIsAccepted(c: Consts, tx: Tx, cur: Script, k: nat)
    requires HashesIdentify(tx.inputs + tx.outputs)
    requires IsLiquidityChange(c, tx) || IsSwaps(c, tx)
    requires k < |Leading(c, tx, 0)| && cur.hash == Leading(c, tx, 0)[k].pool
    ensures UpdateOk(c, tx, cur)
  {
    var ts := Leading(c, tx, 0);
    PoolIsOnce(c, tx, k);
    OneIsGroup(tx.inputs, cur.hash, 3 * k);
    OneIsGroup(tx.outputs, cur.hash, 3 * k);
    if IsSwaps(c, tx) {
      SwapsAreScanned(ts, k, 0);
    } else {
      assert TurnOf(ts, 0, cur.hash) == LiquidityChanged;
    }
  }

  lemma ShapeAccepts(c: Consts, tx: Tx)
    requires HashesIdentify(tx.inputs + tx.outputs)
    requires IsLiquidityChange(c, tx) || IsSwaps(c, tx)
    ensures AllUpdateOn(c, tx, tx.inputs) && AllUpdateOn(c, tx, tx.outputs)
  {
    forall i | 0 <= i < |tx.inputs| && IsPool(c, tx.inputs[i]) ensures UpdateOk(c, tx, tx.inputs[i].typ.value) {
      assert i == 3 * (i / 3);
      LeadingPool(c, tx, i / 3);
      ShapedIsAccepted(c, tx, tx.inputs[i].typ.value, i / 3);
    }
    forall i | 0 <= i < |tx.outputs| && IsPool(c, tx.outputs[i]) ensures UpdateOk(c, tx, tx.outputs[i].typ.value) {
      assert i == 3 * (i / 3);
      LeadingPool(c, tx, i / 3);
      ShapedIsAccepted(c, tx, tx.outputs[i].typ.value, i / 3);
    }
  }

  /** The scripts of a transaction's pools all accept exactly when it has one of the three shapes. */
  lemma AcceptedIffShaped(c: Consts, tx: Tx)
    requires HashesIdentify(tx.inputs + tx.outputs)
    requires !(NoPools(c, tx.inputs) && NoPools(c, tx.outputs))
    ensures AllAccept(c, tx) <==> IsCreation(c, tx) || IsLiquidityChange(c, tx) || IsSwaps(c, tx)
  {
    if AllAccept(c, tx) {
      Classified(c, tx);
    } else if IsLiquidityChange(c, tx) || IsSwaps(c, tx) {
      ShapeAccepts(c, tx);
    } else if IsCreation(c, tx) {
      CreationAccepts(c, tx);
    }
  }

  lemma CreationAccepts(c: Consts, tx: Tx)
    requires IsCreation(c, tx)
    ensures AllAccept(c, tx)
  {
    assert forall i :: 0 < i < |tx.outputs| ==> tx.outputs[i] == tx.outputs[1..][i - 1];
  }
}
