/** The lock script and the pool scripts together: how cells under a pool's lock can be spent. */
module Custody {
  import opened Transaction
  import opened PoolRules
  import opened PoolAgreement
  import opened LockRules

  /** The cell at `k` is part of a leading triple, whose pool makes a valid step. */
  ghost predicate InValidStep(c: Consts, tx: Tx, k: nat) {
    k / 3 < |Leading(c, tx, 0)| && Leading(c, tx, 0)[k / 3].valid
  }

  lemma GuardedHeadIsPool(c: Consts, tx: Tx, hash: Hash, i: nat)
    requires GuardedTriple(c, tx.inputs, hash, i)
    ensures i + 2 < |tx.inputs| && IsPool(c, tx.inputs[i]) && tx.inputs[i].lock.hash == hash
  {
  }

  /** A guarded triple whose pool accepts is a leading one with a valid step. */
  lemma GuardedTripleSteps(c: Consts, tx: Tx, hash: Hash, i: nat)
    requires AllAcceptOn(c, tx, tx.inputs) && i % 3 == 0
    requires i < |tx.inputs| && IsPool(c, tx.inputs[i])
    ensures InValidStep(c, tx, i)
  {
    var cur := tx.inputs[i].typ.value;
    InputsAreNotCreated(c, tx, i);
    var k := AcceptedUpdate(c, tx, cur);
    assert HasType(tx.inputs[i], cur.hash);
    ThirdOf(i, k);
  }

  /** A leading triple leaves three cells under the same lock behind. */
  lemma TripleKeepsLock(c: Consts, tx: Tx, i: nat)
    requires TripleOk(c, tx, i)
    ensures i < |tx.inputs|
    ensures var hash := tx.inputs[i].lock.hash;
      Under(tx.outputs, i, hash) && Under(tx.outputs, i + 1, hash) && Under(tx.outputs, i + 2, hash)
  {
  }

  lemma LeadingKeepsLock(c: Consts, tx: Tx, t: nat, i: nat)
    requires t < |Leading(c, tx, 0)| && i == 3 * t
    ensures i < |tx.inputs|
    ensures var hash := tx.inputs[i].lock.hash;
      Under(tx.outputs, i, hash) && Under(tx.outputs, i + 1, hash) && Under(tx.outputs, i + 2, hash)
  {
    TripleShows(c, tx, t, i);
    TripleKeepsLock(c, tx, i);
  }

  lemma WithinTriple(k: nat)
    ensures var i := 3 * (k / 3); i % 3 == 0 && i / 3 == k / 3 && (k == i || k == i + 1 || k == i + 2)
  {
  }

  /**
   * Where the lock and the pool scripts accept, a cell under a pool's lock is spent only as part of a valid step
   * of a pool, and the output at its index is under the same lock.
   */
  lemma LockedCellsMoveInSteps(c: Consts, tx: Tx, hash: Hash, turns: nat, k: nat)
    requires AllAcceptOn(c, tx, tx.inputs)
    requires UnlockedWithin(c, tx.inputs, hash, turns) && Under(tx.inputs, k, hash)
    ensures InValidStep(c, tx, k) && Under(tx.outputs, k, hash)
  {
    var i := 3 * (k / 3);
    WithinTriple(k);
    UnlockedOnlyInTriples(c, tx.inputs, hash, turns, k);
    GuardedHeadIsPool(c, tx, hash, i);
    GuardedTripleSteps(c, tx, hash, i);
    LeadingKeepsLock(c, tx, k / 3, i);
  }
}
