/** What the pool's lock script asks of a transaction. */
module LockRules {
  import opened Transaction

  predicate Under(inputs: seq<Cell>, k: nat, hash: Hash) {
    k < |inputs| && inputs[k].lock.hash == hash
  }

  /** Three inputs from `i` on are under lock `hash`, and the first of them is a pool cell. */
  predicate GuardedTriple(c: Consts, inputs: seq<Cell>, hash: Hash, i: nat) {
    && i + 2 < |inputs|
    && inputs[i].typ.Some? && inputs[i].typ.value.codeHash == c.poolCode && |inputs[i].typ.value.args| == TX_INPUT_SIZE
    && Under(inputs, i, hash) && Under(inputs, i + 1, hash) && Under(inputs, i + 2, hash)
  }

  // ----- matching triples

  /** How many of the first `n` triples are guarded. */
  function Guarded(c: Consts, inputs: seq<Cell>, hash: Hash, n: nat): nat {
    if n == 0 then 0
    else Guarded(c, inputs, hash, n - 1) + if GuardedTriple(c, inputs, hash, 3 * (n - 1)) then 1 else 0
  }

  lemma {:induction false} GuardedMono(c: Consts, inputs: seq<Cell>, hash: Hash, m: nat, n: nat)
    requires m <= n
    ensures Guarded(c, inputs, hash, m) <= Guarded(c, inputs, hash, n)
    ensures 3 * m + 2 >= |inputs| ==> Guarded(c, inputs, hash, m) == Guarded(c, inputs, hash, n)
  {
    if m < n {
      GuardedMono(c, inputs, hash, m, n - 1);
    }
  }

  predicate UnlockedWithin(c: Consts, inputs: seq<Cell>, hash: Hash, turns: nat) {
    var size := |LockGroup(inputs, hash)|;
    size > 0 && size % 3 == 0 && 3 * Guarded(c, inputs, hash, turns) >= size
  }

  // ----- what unlocking means

  /** How many of the first `m` inputs are under the lock. */
  function GroupUpTo(inputs: seq<Cell>, hash: Hash, m: nat): nat
    requires m <= |inputs|
  {
    if m == 0 then 0 else GroupUpTo(inputs, hash, m - 1) + if inputs[m - 1].lock.hash == hash then 1 else 0
  }

  lemma {:induction false} LockGroupAppend(a: seq<Cell>, b: seq<Cell>, hash: Hash)
    ensures LockGroup(a + b, hash) == LockGroup(a, hash) + LockGroup(b, hash)
  {
    if a == [] {
      assert a + b == b;
    } else {
      var ab := a + b;
      LockGroupAppend(a[1..], b, hash);
      assert ab[0] == a[0] && ab[1..] == a[1..] + b;
      JoinCells(if a[0].lock.hash == hash then [a[0]] else [], LockGroup(a[1..], hash), LockGroup(b, hash));
    }
  }

  lemma {:induction false} GroupUpToIs(inputs: seq<Cell>, hash: Hash, m: nat)
    requires m <= |inputs|
    ensures GroupUpTo(inputs, hash, m) == |LockGroup(inputs[..m], hash)|
  {
    if m > 0 {
      GroupUpToIs(inputs, hash, m - 1);
      assert inputs[..m] == inputs[..m - 1] + [inputs[m - 1]];
      LockGroupAppend(inputs[..m - 1], [inputs[m - 1]], hash);
      assert [inputs[m - 1]][1..] == [];
    }
  }

  predicate InTriple(c: Consts, inputs: seq<Cell>, hash: Hash, k: nat) {
    GuardedTriple(c, inputs, hash, 3 * (k / 3))
  }

  /** Those of the first `m` inputs that are under the lock stand in guarded triples that start at multiples of three. */
  ghost predicate AllInTriples(c: Consts, inputs: seq<Cell>, hash: Hash, m: nat) {
    m == 0 || (AllInTriples(c, inputs, hash, m - 1) && (Under(inputs, m - 1, hash) ==> InTriple(c, inputs, hash, m - 1)))
  }

  lemma {:induction false} EachInTriple(c: Consts, inputs: seq<Cell>, hash: Hash, m: nat, k: nat)
    requires AllInTriples(c, inputs, hash, m) && k < m && Under(inputs, k, hash)
    ensures InTriple(c, inputs, hash, k)
  {
    if k < m - 1 {
      EachInTriple(c, inputs, hash, m - 1, k);
    }
  }

  lemma {:induction false} AllInTriplesIfEach(c: Consts, inputs: seq<Cell>, hash: Hash, m: nat)
    requires forall k :: 0 <= k < m && Under(inputs, k, hash) ==> InTriple(c, inputs, hash, k)
    ensures AllInTriples(c, inputs, hash, m)
  {
    if m > 0 {
      AllInTriplesIfEach(c, inputs, hash, m - 1);
    }
  }

  /** One more triple: three more cells if it is guarded, else as many as are under the lock but in no triple. */
  lemma NextThree(inputs: seq<Cell>, hash: Hash, m: nat)
    requires m + 3 <= |inputs|
    ensures GroupUpTo(inputs, hash, m + 3) == GroupUpTo(inputs, hash, m)
              + (if inputs[m].lock.hash == hash then 1 else 0)
              + (if inputs[m + 1].lock.hash == hash then 1 else 0)
              + (if inputs[m + 2].lock.hash == hash then 1 else 0)
  {
    assert GroupUpTo(inputs, hash, m + 1) == GroupUpTo(inputs, hash, m) + if inputs[m].lock.hash == hash then 1 else 0;
    assert GroupUpTo(inputs, hash, m + 2) == GroupUpTo(inputs, hash, m + 1) + if inputs[m + 1].lock.hash == hash then 1 else 0;
  }

  /** Counting: a group is at least three times its guarded triples, with equality when all stand in one. */
  lemma {:induction false} Counted(c: Consts, inputs: seq<Cell>, hash: Hash, n: nat, m: nat)
    requires m == 3 * n && m <= |inputs|
    ensures 3 * Guarded(c, inputs, hash, n) <= GroupUpTo(inputs, hash, m)
    ensures 3 * Guarded(c, inputs, hash, n) == GroupUpTo(inputs, hash, m) <==> AllInTriples(c, inputs, hash, m)
  {
    if n > 0 {
      var i := m - 3;
      Counted(c, inputs, hash, n - 1, i);
      NextThree(inputs, hash, i);
      AllInTriplesNext(c, inputs, hash, i);
      NextGuarded(c, inputs, hash, n, i);
      CountedStep(Guarded(c, inputs, hash, n - 1), GroupUpTo(inputs, hash, i), AllInTriples(c, inputs, hash, i),
        GuardedTriple(c, inputs, hash, i), Under(inputs, i, hash), Under(inputs, i + 1, hash), Under(inputs, i + 2, hash));
    }
  }

  /** One triple more: guarded or not, and up to three cells under the lock. */
  lemma CountedStep(triples: nat, cells: nat, all: bool, guarded: bool, u0: bool, u1: bool, u2: bool)
    requires 3 * triples <= cells && (3 * triples == cells <==> all)
    requires guarded ==> u0 && u1 && u2
    ensures var triples' := triples + if guarded then 1 else 0;
      var cells' := cells + (if u0 then 1 else 0) + (if u1 then 1 else 0) + (if u2 then 1 else 0);
      && 3 * triples' <= cells'
      && (3 * triples' == cells' <==> all && (u0 || u1 || u2 ==> guarded))
  {
  }

  lemma NextGuarded(c: Consts, inputs: seq<Cell>, hash: Hash, n: nat, i: nat)
    requires n > 0 && i == 3 * (n - 1)
    ensures Guarded(c, inputs, hash, n)
         == Guarded(c, inputs, hash, n - 1) + if GuardedTriple(c, inputs, hash, i) then 1 else 0
  {
  }

  lemma AllInTriplesNext(c: Consts, inputs: seq<Cell>, hash: Hash, m: nat)
    requires m % 3 == 0
    ensures AllInTriples(c, inputs, hash, m + 3) <==>
            AllInTriples(c, inputs, hash, m)
            && (Under(inputs, m, hash) || Under(inputs, m + 1, hash) || Under(inputs, m + 2, hash)
                ==> GuardedTriple(c, inputs, hash, m))
  {
    SameThird(c, inputs, hash, m, m);
    SameThird(c, inputs, hash, m, m + 1);
    SameThird(c, inputs, hash, m, m + 2);
    var two := m + 2;
    assert AllInTriples(c, inputs, hash, m + 3) == (AllInTriples(c, inputs, hash, two) && (Under(inputs, two, hash) ==> InTriple(c, inputs, hash, two)));
    var one := m + 1;
    assert AllInTriples(c, inputs, hash, two) == (AllInTriples(c, inputs, hash, one) && (Under(inputs, one, hash) ==> InTriple(c, inputs, hash, one)));
  }

  lemma SameThird(c: Consts, inputs: seq<Cell>, hash: Hash, m: nat, k: nat)
    requires m % 3 == 0 && m <= k < m + 3
    ensures InTriple(c, inputs, hash, k) == GuardedTriple(c, inputs, hash, m)
  {
    assert 3 * (k / 3) == m;
  }

  lemma {:induction false} Tail(c: Consts, inputs: seq<Cell>, hash: Hash, n: nat, m: nat)
    requires n == |inputs| / 3 && 3 * n <= m <= |inputs|
    ensures 3 * Guarded(c, inputs, hash, n) <= GroupUpTo(inputs, hash, m)
    ensures 3 * Guarded(c, inputs, hash, n) == GroupUpTo(inputs, hash, m) <==> AllInTriples(c, inputs, hash, m)
    decreases m
  {
    if m == 3 * n {
      Counted(c, inputs, hash, n, m);
    } else {
      Tail(c, inputs, hash, n, m - 1);
      SameThird(c, inputs, hash, 3 * n, m - 1);
    }
  }

  lemma CountedAll(c: Consts, inputs: seq<Cell>, hash: Hash, turns: nat)
    ensures var size := |LockGroup(inputs, hash)|;
      && 3 * Guarded(c, inputs, hash, turns) <= size
      && (3 * Guarded(c, inputs, hash, turns) == size ==> AllInTriples(c, inputs, hash, |inputs|))
      && (3 * turns + 2 >= |inputs| && AllInTriples(c, inputs, hash, |inputs|) ==>
            3 * Guarded(c, inputs, hash, turns) == size)
  {
    var n := |inputs| / 3;
    Tail(c, inputs, hash, n, |inputs|);
    GroupUpToIs(inputs, hash, |inputs|);
    assert inputs[..|inputs|] == inputs;
    if turns <= n {
      GuardedMono(c, inputs, hash, turns, n);
    } else {
      GuardedMono(c, inputs, hash, n, turns);
    }
  }

  /** The lock opens only for groups all of whose cells stand in guarded triples. */
  lemma UnlockedOnlyInTriples(c: Consts, inputs: seq<Cell>, hash: Hash, turns: nat, k: nat)
    requires UnlockedWithin(c, inputs, hash, turns) && Under(inputs, k, hash)
    ensures |LockGroup(inputs, hash)| > 0 && |LockGroup(inputs, hash)| % 3 == 0
    ensures GuardedTriple(c, inputs, hash, 3 * (k / 3))
    ensures var i := 3 * (k / 3);
      && i + 2 < |inputs| && inputs[i].typ.Some?
      && inputs[i].typ.value.codeHash == c.poolCode && |inputs[i].typ.value.args| == 44
      && inputs[i].lock.hash == inputs[i + 1].lock.hash == inputs[i + 2].lock.hash == hash
  {
    CountedAll(c, inputs, hash, turns);
    EachInTriple(c, inputs, hash, |inputs|, k);
    GuardedReads(c, inputs, hash, 3 * (k / 3));
  }

  lemma GuardedReads(c: Consts, inputs: seq<Cell>, hash: Hash, i: nat)
    requires GuardedTriple(c, inputs, hash, i)
    ensures i + 2 < |inputs| && inputs[i].typ.Some?
    ensures inputs[i].typ.value.codeHash == c.poolCode && |inputs[i].typ.value.args| == 44
    ensures inputs[i].lock.hash == inputs[i + 1].lock.hash == inputs[i + 2].lock.hash == hash
  {
  }

  /** With turns enough for all inputs it opens exactly for the non-empty ones among these groups. */
  lemma UnlockedIffInTriples(c: Consts, inputs: seq<Cell>, hash: Hash, turns: nat)
    requires 3 * turns + 2 >= |inputs|
    ensures UnlockedWithin(c, inputs, hash, turns)
       <==> LockGroup(inputs, hash) != [] && AllInTriples(c, inputs, hash, |inputs|)
  {
    CountedAll(c, inputs, hash, turns);
  }

  /** A group that is not unlocked after turns for all inputs is not unlocked by any number of turns. */
  lemma MoreTurnsDoNotHelp(c: Consts, inputs: seq<Cell>, hash: Hash, turns: nat, more: nat)
    requires 3 * turns + 2 >= |inputs| && UnlockedWithin(c, inputs, hash, more)
    ensures UnlockedWithin(c, inputs, hash, turns)
  {
    if more <= turns {
      GuardedMono(c, inputs, hash, more, turns);
    } else {
      GuardedMono(c, inputs, hash, turns, more);
    }
  }

  lemma {:induction false} NoneUnder(cells: seq<Cell>, hash: Hash)
    requires forall k :: 0 <= k < |cells| ==> cells[k].lock.hash != hash
    ensures LockGroup(cells, hash) == []
  {
    if cells != [] {
      assert forall k :: 0 <= k < |cells| - 1 ==> cells[1..][k] == cells[k + 1];
      NoneUnder(cells[1..], hash);
    }
  }

  lemma {:induction false} AllUnder(cells: seq<Cell>, hash: Hash)
    requires forall k :: 0 <= k < |cells| ==> cells[k].lock.hash == hash
    ensures |LockGroup(cells, hash)| == |cells|
  {
    if cells != [] {
      assert forall k :: 0 <= k < |cells| - 1 ==> cells[1..][k] == cells[k + 1];
      AllUnder(cells[1..], hash);
    }
  }
}
