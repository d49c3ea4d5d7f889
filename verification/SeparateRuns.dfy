/** The pool scripts of one transaction run separately: each finds other bytes in its fresh buffers. */
module SeparateRuns {
  import opened ByteOrder
  import opened Transaction
  import opened PoolRuns
  import opened PoolRules
  import opened PoolAgreement

  // ----- when the buffers do not matter

  /** A typed cell fills the 16-byte buffer that its amount is loaded into. */
  predicate Whole(cell: Cell) {
    cell.typ.Some? ==> |cell.data| >= UDT_AMOUNT_SIZE
  }

  /** So do all asset cells of the triples under pool locks. */
  ghost predicate WholeTriples(c: Consts, tx: Tx) {
    forall i :: LocksOk(c, tx, i) ==>
      Whole(tx.inputs[i + 1]) && Whole(tx.inputs[i + 2]) && Whole(tx.outputs[i + 1]) && Whole(tx.outputs[i + 2])
  }

  lemma WholeLoads(buf: Buffer, buf': Buffer, udt: Hash, cell: Cell)
    requires Whole(cell) && OfAsset(udt, cell)
    ensures Locked(buf, udt, cell) == Locked(buf', udt, cell)
  {
    if udt != CKB_HASH {
      assert LoadInto(buf, cell.data, UDT_AMOUNT_SIZE) == LoadInto(buf', cell.data, UDT_AMOUNT_SIZE);
    }
  }

  lemma SameAmounts(bufs: Buffers, bufs': Buffers, tx: Tx, i: nat, udt1: Hash, udt2: Hash, p: Pool, q: Pool)
    requires Present(tx, i) && AssetsOk(tx, i + 1, udt1) && AssetsOk(tx, i + 2, udt2)
    requires Whole(tx.inputs[i + 1]) && Whole(tx.inputs[i + 2]) && Whole(tx.outputs[i + 1]) && Whole(tx.outputs[i + 2])
    ensures AmountsOk(bufs.before1, bufs.after1, tx, i + 1, udt1, p.r1, q.r1)
         == AmountsOk(bufs'.before1, bufs'.after1, tx, i + 1, udt1, p.r1, q.r1)
    ensures AmountsOk(bufs.before2, bufs.after2, tx, i + 2, udt2, p.r2, q.r2)
         == AmountsOk(bufs'.before2, bufs'.after2, tx, i + 2, udt2, p.r2, q.r2)
  {
    WholeLoads(bufs.before1, bufs'.before1, udt1, tx.inputs[i + 1]);
    WholeLoads(bufs.after1, bufs'.after1, udt1, tx.outputs[i + 1]);
    WholeLoads(bufs.before2, bufs'.before2, udt2, tx.inputs[i + 2]);
    WholeLoads(bufs.after2, bufs'.after2, udt2, tx.outputs[i + 2]);
  }

  /** Whether the triple at `i` is a pool's does not depend on the buffers. */
  lemma SameTriple(c: Consts, d: Consts, tx: Tx, i: nat)
    requires SameCodes(c, d) && WholeTriples(c, tx)
    ensures TripleOk(c, tx, i) == TripleOk(d, tx, i)
  {
    if LocksOk(c, tx, i) && DataOk(tx, i) {
      var udt1, udt2 := Udt1(tx.inputs[i].lock), Udt2(tx.inputs[i].lock);
      if AssetsOk(tx, i + 1, udt1) && AssetsOk(tx, i + 2, udt2) {
        SameAmounts(c.At(i), d.At(i), tx, i, udt1, udt2, Before(tx, i), After(tx, i));
      }
    }
  }

  lemma SameStep(c: Consts, d: Consts, tx: Tx, i: nat, r: Reading)
    requires SameCodes(c, d)
    ensures ReadingStepOk(c, tx, i, r) == ReadingStepOk(d, tx, i, r)
  {
  }

  lemma {:induction false} SameLeading(c: Consts, d: Consts, tx: Tx, i: nat)
    requires SameCodes(c, d) && WholeTriples(c, tx)
    ensures Leading(c, tx, i) == Leading(d, tx, i)
    decreases |tx.inputs| + 3 - i
  {
    SameTriple(c, d, tx, i);
    if TripleOk(c, tx, i) {
      SameStep(c, d, tx, i, ReadingOf(c, tx, i));
      SameLeading(c, d, tx, i + 3);
    }
  }

  /** Where amounts fill the buffers, an update is accepted whatever the buffers held, or never. */
  lemma SameUpdate(c: Consts, d: Consts, tx: Tx, cur: Script)
    requires SameCodes(c, d) && WholeTriples(c, tx)
    ensures UpdateOk(c, tx, cur) == UpdateOk(d, tx, cur)
  {
    SameLeading(c, d, tx, 0);
  }

  // ----- separate acceptance

  /** The running script accepts with some bytes of its own in its buffers. */
  ghost predicate AcceptsAlone(c: Consts, tx: Tx, cur: Script) {
    exists d :: SameCodes(c, d) && Accepts(d, tx, cur)
  }

  ghost predicate AllAcceptAloneOn(c: Consts, tx: Tx, cells: seq<Cell>) {
    forall k :: 0 <= k < |cells| && IsPool(c, cells[k]) ==> AcceptsAlone(c, tx, cells[k].typ.value)
  }

  /** Accepting alone is accepting an update in the sight of all, or a creation in the script's own. */
  lemma AloneIsUpdateOrCreation(c: Consts, tx: Tx, cur: Script)
    requires WholeTriples(c, tx) && AcceptsAlone(c, tx, cur)
    ensures UpdateOk(c, tx, cur) || exists d :: SameCodes(c, d) && CreateOk(d, tx, cur)
  {
    var d :| SameCodes(c, d) && Accepts(d, tx, cur);
    SameUpdate(c, d, tx, cur);
  }

  /** Beside a creation seen with buffers `d`, whatever accepts alone accepts with `d` too. */
  lemma JoinsCreation(c: Consts, d: Consts, tx: Tx, a: Script, cur: Script)
    requires SameCodes(c, d) && WholeTriples(c, tx) && CreateOk(d, tx, a) && AcceptsAlone(c, tx, cur)
    requires SameIfHash(Some(a), Some(cur))
    ensures Accepts(d, tx, cur)
  {
    SameUpdate(c, d, tx, cur);
    if !UpdateOk(c, tx, cur) {
      AloneIsUpdateOrCreation(c, tx, cur);
      var e :| SameCodes(c, e) && CreateOk(e, tx, cur);
      assert HasType(tx.outputs[0], cur.hash) && HasType(tx.outputs[0], a.hash);
    }
  }

  /** Scripts that each accept with buffers of their own also accept all with one and the same. */
  lemma OneSetOfBuffers(c: Consts, tx: Tx) returns (d: Consts)
    requires WholeTriples(c, tx) && HashesIdentify(tx.inputs + tx.outputs)
    requires AllAcceptAloneOn(c, tx, tx.inputs) && AllAcceptAloneOn(c, tx, tx.outputs)
    ensures SameCodes(c, d) && AllAccept(d, tx) && Leading(d, tx, 0) == Leading(c, tx, 0)
  {
    d := c;
    if k, e :| 0 <= k < |tx.outputs| && IsPool(c, tx.outputs[k]) && SameCodes(c, e)
               && CreateOk(e, tx, tx.outputs[k].typ.value) {
      d := e;
      forall j | 0 <= j < |tx.inputs| && IsPool(c, tx.inputs[j]) ensures Accepts(d, tx, tx.inputs[j].typ.value) {
        SameScript(tx.inputs, tx.outputs, j, k);
        JoinsCreation(c, d, tx, tx.outputs[k].typ.value, tx.inputs[j].typ.value);
      }
      forall j | 0 <= j < |tx.outputs| && IsPool(c, tx.outputs[j]) ensures Accepts(d, tx, tx.outputs[j].typ.value) {
        SameOutputs(tx, k, j);
        JoinsCreation(c, d, tx, tx.outputs[k].typ.value, tx.outputs[j].typ.value);
      }
    } else {
      forall j | 0 <= j < |tx.inputs| && IsPool(c, tx.inputs[j]) ensures UpdateOk(c, tx, tx.inputs[j].typ.value) {
        AloneIsUpdateOrCreation(c, tx, tx.inputs[j].typ.value);
        NoInputCreates(c, tx, j);
      }
      forall j | 0 <= j < |tx.outputs| && IsPool(c, tx.outputs[j]) ensures UpdateOk(c, tx, tx.outputs[j].typ.value) {
        AloneIsUpdateOrCreation(c, tx, tx.outputs[j].typ.value);
      }
    }
    SameLeading(c, d, tx, 0);
  }

  lemma NoInputCreates(c: Consts, tx: Tx, j: nat)
    requires j < |tx.inputs| && tx.inputs[j].typ.Some?
    ensures forall d :: !CreateOk(d, tx, tx.inputs[j].typ.value)
  {
    forall d ensures !CreateOk(d, tx, tx.inputs[j].typ.value) {
      InputsAreNotCreated(d, tx, j);
    }
  }

  lemma SameOutputs(tx: Tx, k: nat, j: nat)
    requires HashesIdentify(tx.inputs + tx.outputs) && k < |tx.outputs| && j < |tx.outputs|
    ensures SameIfHash(tx.outputs[k].typ, tx.outputs[j].typ)
  {
    var all := tx.inputs + tx.outputs;
    assert all[|tx.inputs| + k] == tx.outputs[k] && all[|tx.inputs| + j] == tx.outputs[j];
  }

  // ----- agreement of separate runs

  /** Scripts that have run separately still ask for the same fee in the same cell. */
  lemma SameFeeCellApart(c: Consts, d: Consts, tx: Tx, a: Script, b: Script)
    requires SameCodes(c, d) && WholeTriples(c, tx) && UpdateOk(c, tx, a) && UpdateOk(d, tx, b)
    ensures Scan(Leading(c, tx, 0), a.hash, 0, false) == Scan(Leading(d, tx, 0), b.hash, 0, false)
  {
    SameLeading(c, d, tx, 0);
    SameUpdate(c, d, tx, b);
    SameFeeCell(c, tx, a, b);
  }

  /** The classification for scripts that have run separately. */
  lemma ClassifiedApart(c: Consts, tx: Tx) returns (d: Consts)
    requires WholeTriples(c, tx) && HashesIdentify(tx.inputs + tx.outputs)
    requires AllAcceptAloneOn(c, tx, tx.inputs) && AllAcceptAloneOn(c, tx, tx.outputs)
    requires !(NoPools(c, tx.inputs) && NoPools(c, tx.outputs))
    ensures SameCodes(c, d) && (IsCreation(d, tx) || IsLiquidityChange(c, tx) || IsSwaps(c, tx))
  {
    d := OneSetOfBuffers(c, tx);
    PoolsTheSame(c, d, tx.inputs);
    PoolsTheSame(c, d, tx.outputs);
    Classified(d, tx);
    if PoolsInTriples(d, tx) {
      TriplesTheSame(c, d, tx);
    }
  }

  lemma PoolsTheSame(c: Consts, d: Consts, cells: seq<Cell>)
    requires SameCodes(c, d)
    ensures NoPools(c, cells) <==> NoPools(d, cells)
  {
    assert forall k :: 0 <= k < |cells| ==> IsPool(c, cells[k]) == IsPool(d, cells[k]);
  }

  lemma TriplesTheSame(c: Consts, d: Consts, tx: Tx)
    requires SameCodes(c, d) && Leading(c, tx, 0) == Leading(d, tx, 0) && PoolsInTriples(d, tx)
    ensures PoolsInTriples(c, tx)
  {
    assert forall k :: 0 <= k < |tx.inputs| ==> IsPool(c, tx.inputs[k]) == IsPool(d, tx.inputs[k]);
    assert forall k :: 0 <= k < |tx.outputs| ==> IsPool(c, tx.outputs[k]) == IsPool(d, tx.outputs[k]);
  }
}
