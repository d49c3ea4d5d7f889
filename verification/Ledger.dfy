/** The cells of a chain, and what posting a transaction does to sums over the live ones. */
module Ledger {
  import opened Numbers
  import opened Transaction
  import opened PoolRules
  import opened TokenRules
  import opened ByteOrder
  import opened PoolRuns

  // ----- entries

  /** Where a cell was created; a transaction input names it after eight bytes of `since`. */
  type OutPoint = s: seq<byte> | |s| == 36 witness CKB_HASH + [0, 0, 0, 0]

  const SINCE_SIZE: nat := 8

  function PointOf(ref: TxIn): OutPoint {
    ref[SINCE_SIZE..]
  }

  /** A cell that has been created, and whether it is still unspent. */
  datatype Entry = Entry(point: OutPoint, cell: Cell, live: bool)

  /** A transaction with the entries it spends and the out points of its outputs. */
  datatype Posting = Posting(tx: Tx, at: seq<nat>, points: seq<OutPoint>)

  /** The entries named are live, are the inputs, and none is named twice. */
  predicate CanSpend(entries: seq<Entry>, at: seq<nat>, refs: seq<TxIn>, inputs: seq<Cell>)
    decreases |at|
  {
    && |at| == |refs| == |inputs|
    && (at == [] ||
        (&& at[0] < |entries| && entries[at[0]] == Entry(PointOf(refs[0]), inputs[0], true)
         && CanSpend(entries[at[0] := entries[at[0]].(live := false)], at[1..], refs[1..], inputs[1..])))
  }

  function Spend(entries: seq<Entry>, at: seq<nat>, refs: seq<TxIn>, inputs: seq<Cell>): seq<Entry>
    requires CanSpend(entries, at, refs, inputs)
    decreases |at|
  {
    if at == [] then entries
    else Spend(entries[at[0] := entries[at[0]].(live := false)], at[1..], refs[1..], inputs[1..])
  }

  function Created(points: seq<OutPoint>, outputs: seq<Cell>): seq<Entry>
    requires |points| == |outputs|
  {
    if points == [] then [] else [Entry(points[0], outputs[0], true)] + Created(points[1..], outputs[1..])
  }

  /** No out point is used twice. */
  ghost predicate DistinctPoints(entries: seq<Entry>) {
    forall i, j :: 0 <= i < j < |entries| ==> entries[i].point != entries[j].point
  }

  ghost predicate CanPost(entries: seq<Entry>, p: Posting) {
    && CanSpend(entries, p.at, p.tx.refs, p.tx.inputs)
    && |p.points| == |p.tx.outputs|
    && DistinctPoints(Spend(entries, p.at, p.tx.refs, p.tx.inputs) + Created(p.points, p.tx.outputs))
  }

  function Post(entries: seq<Entry>, p: Posting): seq<Entry>
    requires CanPost(entries, p)
  {
    Spend(entries, p.at, p.tx.refs, p.tx.inputs) + Created(p.points, p.tx.outputs)
  }

  // ----- sums over cells

  /**
   * What to add up over the cells of one type; or, over those under one lock, the amounts of an asset outside pool
   * cells, the reserves recorded in pool cells, or the pool cells. `code` is the pools' code hash.
   */
  datatype What =
    | CellCount | Tokens | Reserve1 | Reserve2 | TotalLiquidity
    | Holdings(code: Hash, udt: Hash) | Booked1(code: Hash) | Booked2(code: Hash) | PoolsUnder(code: Hash)
  {
    predicate ByType() {
      CellCount? || Tokens? || Reserve1? || Reserve2? || TotalLiquidity?
    }
  }

  predicate OfCode(code: Hash, cell: Cell) {
    cell.typ.Some? && cell.typ.value.codeHash == code
  }

  /** The amount of an asset in a cell; none where the data is too short to hold an amount. */
  function Holding(udt: Hash, cell: Cell): nat {
    if udt == CKB_HASH then cell.capacity
    else if |cell.data| >= UDT_AMOUNT_SIZE then Amount(cell.data, 0)
    else 0
  }

  function CellWeight(what: What, hash: Hash, cell: Cell): nat {
    if what.ByType() then if HasType(cell, hash) then TypeWeight(what, cell) else 0
    else if cell.lock.hash == hash then LockWeight(what, cell)
    else 0
  }

  function TypeWeight(what: What, cell: Cell): nat
    requires what.ByType()
  {
    match what
    case CellCount => 1
    case Tokens => Held(cell)
    case Reserve1 => RecordedIn(cell).r1
    case Reserve2 => RecordedIn(cell).r2
    case TotalLiquidity => RecordedIn(cell).liquidity
  }

  function LockWeight(what: What, cell: Cell): nat
    requires !what.ByType()
  {
    match what
    case Holdings(code, udt) => if !OfCode(code, cell) && OfAsset(udt, cell) then Holding(udt, cell) else 0
    case Booked1(code) => if OfCode(code, cell) then RecordedIn(cell).r1 else 0
    case Booked2(code) => if OfCode(code, cell) then RecordedIn(cell).r2 else 0
    case PoolsUnder(code) => if OfCode(code, cell) then 1 else 0
  }

  function RecordedIn(cell: Cell): Pool {
    if |cell.data| == UDTSWAP_DATA_SIZE then Recorded(cell.data) else Pool(0, 0, 0)
  }

  function SumOf(what: What, hash: Hash, cells: seq<Cell>): nat {
    if cells == [] then 0 else CellWeight(what, hash, cells[0]) + SumOf(what, hash, cells[1..])
  }

  function EntryWeight(what: What, hash: Hash, e: Entry): nat {
    if e.live then CellWeight(what, hash, e.cell) else 0
  }

  /** The sum over all live cells. */
  function Sum(what: What, hash: Hash, entries: seq<Entry>): nat {
    if entries == [] then 0 else EntryWeight(what, hash, entries[0]) + Sum(what, hash, entries[1..])
  }

  lemma {:induction false} SumAppend(what: What, hash: Hash, a: seq<Entry>, b: seq<Entry>)
    ensures Sum(what, hash, a + b) == Sum(what, hash, a) + Sum(what, hash, b)
  {
    if a == [] {
      assert a + b == b;
    } else {
      SumAppend(what, hash, a[1..], b);
      assert (a + b)[1..] == a[1..] + b;
    }
  }

  lemma {:induction false} SumUpdate(what: What, hash: Hash, entries: seq<Entry>, j: nat, e: Entry)
    requires j < |entries|
    ensures Sum(what, hash, entries[j := e]) + EntryWeight(what, hash, entries[j])
         == Sum(what, hash, entries) + EntryWeight(what, hash, e)
  {
    if j == 0 {
      assert entries[0 := e][1..] == entries[1..];
    } else {
      SumUpdate(what, hash, entries[1..], j - 1, e);
      assert entries[j := e][1..] == entries[1..][j - 1 := e];
    }
  }

  lemma {:induction false} SumSpend(what: What, hash: Hash, entries: seq<Entry>, at: seq<nat>, refs: seq<TxIn>, inputs: seq<Cell>)
    requires CanSpend(entries, at, refs, inputs)
    ensures Sum(what, hash, entries) == SumOf(what, hash, inputs) + Sum(what, hash, Spend(entries, at, refs, inputs))
    decreases |at|
  {
    if at != [] {
      var e := entries[at[0]].(live := false);
      SumUpdate(what, hash, entries, at[0], e);
      SumSpend(what, hash, entries[at[0] := e], at[1..], refs[1..], inputs[1..]);
    }
  }

  lemma {:induction false} SumCreated(what: What, hash: Hash, points: seq<OutPoint>, outputs: seq<Cell>)
    requires |points| == |outputs|
    ensures Sum(what, hash, Created(points, outputs)) == SumOf(what, hash, outputs)
  {
    if points != [] {
      SumCreated(what, hash, points[1..], outputs[1..]);
      assert Created(points, outputs)[1..] == Created(points[1..], outputs[1..]);
    }
  }

  /** Conservation: posting takes the inputs out of every sum over live cells, and puts the outputs in. */
  lemma Posted(what: What, hash: Hash, entries: seq<Entry>, p: Posting)
    requires CanPost(entries, p)
    ensures SumOf(what, hash, p.tx.inputs) <= Sum(what, hash, entries)
    ensures Sum(what, hash, Post(entries, p))
         == Sum(what, hash, entries) - SumOf(what, hash, p.tx.inputs) + SumOf(what, hash, p.tx.outputs)
  {
    var rest := Spend(entries, p.at, p.tx.refs, p.tx.inputs);
    SumSpend(what, hash, entries, p.at, p.tx.refs, p.tx.inputs);
    SumCreated(what, hash, p.points, p.tx.outputs);
    SumAppend(what, hash, rest, Created(p.points, p.tx.outputs));
  }

  // ----- sums over groups

  lemma {:induction false} TokensOfGroup(hash: Hash, cells: seq<Cell>)
    ensures SumOf(Tokens, hash, cells) == Total(TypeGroup(cells, hash))
  {
    if cells != [] {
      TokensOfGroup(hash, cells[1..]);
      if HasType(cells[0], hash) {
        assert TypeGroup(cells, hash)[1..] == TypeGroup(cells[1..], hash);
      } else {
        assert TypeGroup(cells, hash) == TypeGroup(cells[1..], hash);
      }
    }
  }

  lemma {:induction false} CountOfGroup(hash: Hash, cells: seq<Cell>)
    ensures SumOf(CellCount, hash, cells) == |TypeGroup(cells, hash)|
  {
    if cells != [] {
      CountOfGroup(hash, cells[1..]);
    }
  }

  lemma {:induction false} SumOfNone(what: What, hash: Hash, cells: seq<Cell>)
    requires what.ByType()
    requires forall k :: 0 <= k < |cells| ==> !HasType(cells[k], hash)
    ensures SumOf(what, hash, cells) == 0
  {
    if cells != [] {
      assert forall k :: 0 <= k < |cells| - 1 ==> cells[1..][k] == cells[k + 1];
      SumOfNone(what, hash, cells[1..]);
    }
  }

  /** Over a group of one, every sum is that cell's. */
  lemma {:induction false} SumOfOne(what: What, hash: Hash, cells: seq<Cell>, at: nat)
    requires what.ByType()
    requires at < |cells| && forall k :: 0 <= k < |cells| ==> (HasType(cells[k], hash) <==> k == at)
    ensures SumOf(what, hash, cells) == CellWeight(what, hash, cells[at])
  {
    assert forall k :: 0 <= k < |cells| - 1 ==> cells[1..][k] == cells[k + 1];
    if at == 0 {
      SumOfNone(what, hash, cells[1..]);
    } else {
      SumOfOne(what, hash, cells[1..], at - 1);
    }
  }

  /** Where no live cell has a type, nothing of it adds up. */
  lemma {:induction false} SumOfNoCells(what: What, hash: Hash, entries: seq<Entry>)
    requires what.ByType() && Sum(CellCount, hash, entries) == 0
    ensures Sum(what, hash, entries) == 0
  {
    if entries != [] {
      SumOfNoCells(what, hash, entries[1..]);
    }
  }
}
