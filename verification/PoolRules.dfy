/** What the pool's type script asks of a transaction. */
module PoolRules {
  import opened Numbers
  import opened ByteOrder
  import opened Transaction
  import opened PoolRuns

  const UDTSWAP_TYPE_SCRIPT_SIZE: nat := 97
  const UDTSWAP_LOCK_SCRIPT_SIZE: nat := 117
  const UDTSWAP_LIQUIDITY_UDT_TYPE_SCRIPT_SIZE: nat := 129
  const UDT1_SCRIPT_HASH_START: nat := 53
  const UDT2_SCRIPT_HASH_START: nat := 85
  const ARGS_TX_INPUT_START: nat := 85
  const UDTSWAP_DATA_SIZE: nat := 48
  const UDT1_RESERVE_START: nat := 0
  const UDT2_RESERVE_START: nat := 16
  const TOTAL_LIQUIDITY_START: nat := 32
  const CKB_RESERVE_DEFAULT: nat := 30000000000
  const UDT_RESERVE_DEFAULT: nat := 1
  const STATE_USE_FEE: nat := 6100000000
  const SCRIPT_SIZE: nat := 32768

  const ADD_LIQUIDITY_CELL_INDEX: nat := 4
  const REMOVE_LIQUIDITY_CELL_START_INDEX: nat := 3

  // ----- what the cells say

  const LOCK_ARGS_SIZE: nat := 64

  /** First and second asset of a pool, by the script hashes in the lock's args. */
  function Udt1(lock: Script): Hash
    requires |lock.args| == LOCK_ARGS_SIZE
  {
    lock.args[..SCRIPT_HASH_SIZE]
  }

  function Udt2(lock: Script): Hash
    requires |lock.args| == LOCK_ARGS_SIZE
  {
    lock.args[SCRIPT_HASH_SIZE..]
  }

  /** What a pool cell's data records. */
  function Recorded(data: seq<byte>): (p: Pool)
    requires |data| == UDTSWAP_DATA_SIZE
    ensures p.r1 < TWO128 && p.r2 < TWO128 && p.liquidity < TWO128
  {
    Pool(Amount(data, UDT1_RESERVE_START), Amount(data, UDT2_RESERVE_START), Amount(data, TOTAL_LIQUIDITY_START))
  }

  /** The cell is of the asset `udt`: untyped if that is CKB, else of that type. */
  predicate OfAsset(udt: Hash, cell: Cell) {
    if udt == CKB_HASH then cell.typ.None? else HasType(cell, udt)
  }

  /** The amount of `udt` locked in a cell, as read through a buffer. */
  function Locked(buf: Buffer, udt: Hash, cell: Cell): U128 {
    if udt == CKB_HASH then cell.capacity else Amount(LoadInto(buf, cell.data, UDT_AMOUNT_SIZE), 0)
  }

  function Default(udt: Hash): nat {
    if udt == CKB_HASH then CKB_RESERVE_DEFAULT else UDT_RESERVE_DEFAULT
  }

  // ----- one triple of cells

  predicate Present(tx: Tx, i: nat) {
    i + 2 < |tx.inputs| && i + 2 < |tx.outputs|
  }

  /** Six cells under one pool lock. */
  predicate LocksOk(c: Consts, tx: Tx, i: nat) {
    && Present(tx, i)
    && var lock := tx.inputs[i].lock;
    && |lock.args| == LOCK_ARGS_SIZE && lock.codeHash == c.lockCode
    && tx.inputs[i + 1].lock.hash == lock.hash && tx.inputs[i + 2].lock.hash == lock.hash
    && tx.outputs[i].lock.hash == lock.hash
    && tx.outputs[i + 1].lock.hash == lock.hash && tx.outputs[i + 2].lock.hash == lock.hash
  }

  predicate DataOk(tx: Tx, i: nat) {
    && Present(tx, i)
    && |tx.inputs[i].data| == UDTSWAP_DATA_SIZE && |tx.outputs[i].data| == UDTSWAP_DATA_SIZE
  }

  /** The cells at `j` are of asset `udt`, before and after. */
  predicate AssetsOk(tx: Tx, j: nat, udt: Hash) {
    && j < |tx.inputs| && j < |tx.outputs|
    && OfAsset(udt, tx.inputs[j]) && OfAsset(udt, tx.outputs[j])
  }

  /** The recorded reserves are what is locked at `j`, before and after. */
  predicate AmountsOk(bufIn: Buffer, bufOut: Buffer, tx: Tx, j: nat, udt: Hash, before: nat, after: nat) {
    && j < |tx.inputs| && j < |tx.outputs|
    && before == Locked(bufIn, udt, tx.inputs[j]) && after == Locked(bufOut, udt, tx.outputs[j])
  }

  /** The head cells carry one and the same pool type. */
  predicate HeadOk(c: Consts, tx: Tx, i: nat) {
    && Present(tx, i)
    && tx.outputs[i].typ.Some? && tx.inputs[i].typ.Some?
    && tx.outputs[i].typ.value.codeHash == c.poolCode
    && |tx.outputs[i].typ.value.args| == TX_INPUT_SIZE
    && tx.inputs[i].typ.value.hash == tx.outputs[i].typ.value.hash
  }

  /** Recorded state of the pool at `i`, before and after the transaction. */
  function Before(tx: Tx, i: nat): Pool
    requires DataOk(tx, i)
  {
    Recorded(tx.inputs[i].data)
  }

  function After(tx: Tx, i: nat): Pool
    requires DataOk(tx, i)
  {
    Recorded(tx.outputs[i].data)
  }

  /** Everything the default check asks of the triple at `i`, whosever pool it is. */
  predicate TripleOk(c: Consts, tx: Tx, i: nat) {
    && LocksOk(c, tx, i) && DataOk(tx, i)
    && var lock := tx.inputs[i].lock;
    && AssetsOk(tx, i + 1, Udt1(lock)) && AssetsOk(tx, i + 2, Udt2(lock))
    && AmountsOk(c.At(i).before1, c.At(i).after1, tx, i + 1, Udt1(lock), Before(tx, i).r1, After(tx, i).r1)
    && AmountsOk(c.At(i).before2, c.At(i).after2, tx, i + 2, Udt2(lock), Before(tx, i).r2, After(tx, i).r2)
    && HeadOk(c, tx, i)
  }

  /** The triple at `i` belongs to the pool whose script is running. */
  predicate Matched(c: Consts, tx: Tx, cur: Script, i: nat) {
    TripleOk(c, tx, i) && HasType(tx.inputs[i], cur.hash)
  }

  /** The out-parameters of the default check. */
  datatype Reading = Reading(isCkb1: bool, isCkb2: bool, before: Pool, after: Pool)

  function ReadingOf(c: Consts, tx: Tx, i: nat): Reading
    requires TripleOk(c, tx, i)
  {
    var lock := tx.inputs[i].lock;
    Reading(Udt1(lock) == CKB_HASH, Udt2(lock) == CKB_HASH, Before(tx, i), After(tx, i))
  }

  // ----- the fee cell and the liquidity-token cell

  /** The fee cell: locked to the fee lock, untyped, and holding exactly the fee for `cnt` pools. */
  predicate FeeOk(c: Consts, tx: Tx, index: nat, cnt: nat) {
    && index < |tx.outputs|
    && tx.outputs[index].lock.hash == c.feeLock
    && tx.outputs[index].typ.None?
    && tx.outputs[index].capacity == STATE_USE_FEE * cnt
  }

  const TOKEN_ARGS_SIZE: nat := 76

  /** `token` is the liquidity token that belongs to pool type `pool` under lock `owner`. */
  predicate TokenOfPool(c: Consts, token: Script, pool: Script, owner: Hash) {
    && token.codeHash == c.tokenCode
    && |token.args| == TOKEN_ARGS_SIZE && |pool.args| == TX_INPUT_SIZE
    && token.args == owner + pool.args
  }

  /** The cell at `index` holds the liquidity token of the pool at input 0. */
  predicate LiquidityCellOk(c: Consts, tx: Tx, cells: seq<Cell>, index: nat) {
    && index < |cells| && cells[index].typ.Some?
    && 0 < |tx.inputs| && tx.inputs[0].typ.Some?
    && TokenOfPool(c, cells[index].typ.value, tx.inputs[0].typ.value, tx.inputs[0].lock.hash)
  }

  // ----- creating a pool

  /** `memcmp(a, b, n) < 0` */
  predicate Less(a: seq<byte>, b: seq<byte>)
    requires |a| == |b|
  {
    a != [] && (a[0] < b[0] || (a[0] == b[0] && Less(a[1..], b[1..])))
  }

  lemma {:induction false} LessIsStrict(a: seq<byte>, b: seq<byte>)
    requires |a| == |b|
    ensures Less(a, b) ==> a != b && !Less(b, a)
  {
    if a != [] {
      LessIsStrict(a[1..], b[1..]);
    }
  }

  lemma {:induction false} LessShowsDifference(a: seq<byte>, b: seq<byte>) returns (k: nat)
    requires |a| == |b| && Less(a, b)
    ensures k < |a| && a[..k] == b[..k] && a[k] < b[k]
  {
    k := 0;
    if a[0] == b[0] {
      k := LessShowsDifference(a[1..], b[1..]);
      PrefixFromTail(a, b, k);
      k := k + 1;
    }
  }

  lemma {:induction false} DifferenceIsLess(a: seq<byte>, b: seq<byte>, k: nat)
    requires k < |a| == |b| && a[..k] == b[..k] && a[k] < b[k]
    ensures Less(a, b)
  {
    if k > 0 {
      assert a[..k][0] == b[..k][0];
      assert a[1..][..k - 1] == a[..k][1..] && b[1..][..k - 1] == b[..k][1..];
      DifferenceIsLess(a[1..], b[1..], k - 1);
    }
  }

  /** The order is decided by the first byte that differs. */
  lemma LessIsFirstDifference(a: seq<byte>, b: seq<byte>)
    requires |a| == |b|
    ensures Less(a, b) <==> exists k :: 0 <= k < |a| && a[..k] == b[..k] && a[k] < b[k]
  {
    if Less(a, b) {
      var k := LessShowsDifference(a, b);
    }
    if k :| 0 <= k < |a| && a[..k] == b[..k] && a[k] < b[k] {
      DifferenceIsLess(a, b, k);
    }
  }

  lemma PrefixFromTail(a: seq<byte>, b: seq<byte>, k: nat)
    requires k < |a| == |b| && a[0] == b[0] && a[1..][..k] == b[1..][..k]
    ensures a[..k + 1] == b[..k + 1]
  {
    assert a[..k + 1] == [a[0]] + a[1..][..k] && b[..k + 1] == [b[0]] + b[1..][..k];
  }

  /** Nothing sorts below the all-zero hash that stands for CKB. */
  lemma {:induction false} NothingBelowZeros(a: seq<byte>, zeros: seq<byte>)
    requires |a| == |zeros| && forall k :: 0 <= k < |zeros| ==> zeros[k] == 0
    ensures !Less(a, zeros)
  {
    if a != [] {
      NothingBelowZeros(a[1..], zeros[1..]);
    }
  }

  lemma CkbIsLeast(a: Hash)
    ensures !Less(a, CKB_HASH)
  {
    NothingBelowZeros(a, CKB_HASH);
  }

  /** The amount that creation reads from output `j`, with `buf` and `limit` left over from the load before. */
  function Deposited(udt: Hash, cell: Cell, buf: Buffer, limit: nat): U128 {
    if udt == CKB_HASH then cell.capacity else Amount(LoadInto(buf, cell.data, limit), 0)
  }

  /** The new pool's cells: head at output 0, assets at outputs 1 and 2. */
  predicate NewCellsOk(c: Consts, tx: Tx) {
    && 2 < |tx.outputs|
    && var lock := tx.outputs[0].lock;
    && |lock.args| == LOCK_ARGS_SIZE && lock.codeHash == c.lockCode
    && Less(Udt1(lock), Udt2(lock))
    && tx.outputs[1].lock.hash == lock.hash && tx.outputs[2].lock.hash == lock.hash
    && OfAsset(Udt1(lock), tx.outputs[1]) && OfAsset(Udt2(lock), tx.outputs[2])
    && |tx.outputs[0].data| == UDTSWAP_DATA_SIZE
  }

  /** The 16-byte buffer when the second amount is loaded. */
  function LeftBuffer(c: Consts, udt1: Hash, cell1: Cell): Buffer {
    if udt1 == CKB_HASH then c.created else LoadInto(c.created, cell1.data, UDTSWAP_DATA_SIZE)
  }

  /** The length in force when the second amount is loaded. */
  function LeftLength(udt1: Hash, cell1: Cell): nat {
    if udt1 == CKB_HASH then 8 else |cell1.data|
  }

  /** A new pool starts at the default reserves, with no liquidity. */
  predicate NewAmountsOk(c: Consts, tx: Tx)
    requires NewCellsOk(c, tx)
  {
    var udt1 := Udt1(tx.outputs[0].lock);
    var udt2 := Udt2(tx.outputs[0].lock);
    && Recorded(tx.outputs[0].data) == Pool(Default(udt1), Default(udt2), 0)
    && Default(udt1) == Deposited(udt1, tx.outputs[1], c.created, UDTSWAP_DATA_SIZE)
    && Default(udt2) == Deposited(udt2, tx.outputs[2], LeftBuffer(c, udt1, tx.outputs[1]), LeftLength(udt1, tx.outputs[1]))
  }

  predicate FirstInputOk(tx: Tx, cur: Script) {
    tx.refs != [] && cur.args == tx.refs[0]
  }

  predicate CreateGroupOk(tx: Tx, cur: Script) {
    && TypeGroup(tx.inputs, cur.hash) == [] && |TypeGroup(tx.outputs, cur.hash)| == 1
    && tx.outputs != [] && HasType(tx.outputs[0], cur.hash)
  }

  predicate CreateOk(c: Consts, tx: Tx, cur: Script) {
    FirstInputOk(tx, cur) && CreateGroupOk(tx, cur) && NewCellsOk(c, tx) && NewAmountsOk(c, tx)
  }

  /** The first asset is no CKB and its cell has more data than the 16-byte buffer takes. */
  predicate Spills(tx: Tx)
    requires 1 < |tx.outputs| && |tx.outputs[0].lock.args| == LOCK_ARGS_SIZE
  {
    Udt1(tx.outputs[0].lock) != CKB_HASH && |tx.outputs[1].data| > UDT_AMOUNT_SIZE
  }

  /** In a created pool the two assets differ and only the first can be CKB. */
  lemma CreatedPoolAssets(c: Consts, tx: Tx, cur: Script)
    requires CreateOk(c, tx, cur)
    ensures var lock := tx.outputs[0].lock; Udt1(lock) != Udt2(lock) && Udt2(lock) != CKB_HASH
  {
    var lock := tx.outputs[0].lock;
    LessIsStrict(Udt1(lock), Udt2(lock));
    CkbIsLeast(Udt1(lock));
  }

  // ----- one validated step

  /** Reserves are never below the defaults, and above them afterwards. */
  predicate AboveMinimum(d1: nat, d2: nat, p: Pool, q: Pool) {
    p.r1 >= d1 && q.r1 > d1 && p.r2 >= d2 && q.r2 > d2
  }

  /** A pool without its default reserves. */
  function Net(d1: nat, d2: nat, p: Pool): Pool
    requires p.r1 >= d1 && p.r2 >= d2
  {
    Pool(p.r1 - d1, p.r2 - d2, p.liquidity)
  }

  /** One step of the pool, a liquidity change only at triple 0 and with its token's cell in place. */
  predicate NetStepOk(c: Consts, tx: Tx, i: nat, p: Pool, q: Pool) {
    || SwapStep(p, q)
    || (i == 0 && (FirstDeposit(p, q) || AddStep(p, q)) && LiquidityCellOk(c, tx, tx.outputs, ADD_LIQUIDITY_CELL_INDEX))
    || (i == 0 && RemoveStep(p, q) && LiquidityCellOk(c, tx, tx.inputs, REMOVE_LIQUIDITY_CELL_START_INDEX))
  }

  function DefaultFor(isCkb: bool): nat {
    if isCkb then CKB_RESERVE_DEFAULT else UDT_RESERVE_DEFAULT
  }

  /** The step that a reading shows is valid. */
  predicate ReadingStepOk(c: Consts, tx: Tx, i: nat, r: Reading) {
    var d1 := DefaultFor(r.isCkb1);
    var d2 := DefaultFor(r.isCkb2);
    && AboveMinimum(d1, d2, r.before, r.after)
    && NetStepOk(c, tx, i, Net(d1, d2, r.before), Net(d1, d2, r.after))
  }

  predicate InRange(p: Pool) {
    p.r1 < TWO128 && p.r2 < TWO128 && p.liquidity < TWO128
  }

  // ----- the scan

  /** One script input and one output in the running script's group. */
  predicate UpdateGroupOk(tx: Tx, cur: Script) {
    |TypeGroup(tx.inputs, cur.hash)| == 1 && |TypeGroup(tx.outputs, cur.hash)| == 1
  }

  /** What a scan needs to know of a triple: whose pool it is, if its step is valid, if liquidity stays. */
  datatype Triple = Triple(pool: Hash, valid: bool, kept: bool)

  function TripleAt(c: Consts, tx: Tx, i: nat): Triple
    requires TripleOk(c, tx, i)
  {
    var r := ReadingOf(c, tx, i);
    Triple(tx.inputs[i].typ.value.hash, ReadingStepOk(c, tx, i, r), r.before.liquidity == r.after.liquidity)
  }

  /** The triples from `i` on, up to the first that is no pool's. */
  function Leading(c: Consts, tx: Tx, i: nat): seq<Triple>
    decreases |tx.inputs| + 3 - i
  {
    if TripleOk(c, tx, i) then [TripleAt(c, tx, i)] + Leading(c, tx, i + 3) else []
  }

  /** How one turn of the scan goes on. */
  datatype Turn = NoPool | OtherPool | Invalid | Swapped | LiquidityChanged

  /** What the turn on the leading triples `ts`, of which `t` are behind, has to find. */
  function TurnOf(ts: seq<Triple>, t: nat, hash: Hash): Turn
    requires t <= |ts|
  {
    if t == |ts| then NoPool
    else if ts[t].pool != hash then OtherPool
    else if !ts[t].valid then Invalid
    else if ts[t].kept then Swapped
    else LiquidityChanged
  }

  /**
   * How many triples the scan of pool `hash` has behind it when it ends without failing; `success` tells whether
   * a swap has been passed.
   */
  function Scan(ts: seq<Triple>, hash: Hash, t: nat, success: bool): Option<nat>
    requires t <= |ts|
    decreases |ts| - t
  {
    match TurnOf(ts, t, hash)
    case NoPool => if success then Some(t) else None
    case OtherPool => Scan(ts, hash, t + 1, success)
    case Invalid => None
    case Swapped => Scan(ts, hash, t + 1, true)
    case LiquidityChanged => Some(t + 1)
  }

  predicate UpdateOk(c: Consts, tx: Tx, cur: Script) {
    var end := Scan(Leading(c, tx, 0), cur.hash, 0, false);
    UpdateGroupOk(tx, cur) && end.Some? && FeeOk(c, tx, 3 * end.value, end.value)
  }

  /** The running pool script accepts the transaction. */
  predicate Accepts(c: Consts, tx: Tx, cur: Script) {
    CreateOk(c, tx, cur) || UpdateOk(c, tx, cur)
  }

  /** The leading triples are those at 0, 3, 6, ..., and the one after the last is no pool's. */
  lemma {:induction false} LeadingAt(c: Consts, tx: Tx, i: nat, k: nat, at: nat)
    requires k <= |Leading(c, tx, i)| && at == i + 3 * k
    ensures k == |Leading(c, tx, i)| <==> !TripleOk(c, tx, at)
    ensures k < |Leading(c, tx, i)| ==> Leading(c, tx, i)[k] == TripleAt(c, tx, at)
    decreases k
  {
    if k > 0 {
      LeadingAt(c, tx, i + 3, k - 1, at);
      assert Leading(c, tx, i)[1..] == Leading(c, tx, i + 3);
    }
  }
}
