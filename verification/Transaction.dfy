/** Transactions as the scripts see them, and the groups of cells that scripts run on. */
module Transaction {
  import opened Numbers
  import opened ByteOrder

  datatype Option<+T> = None | Some(value: T)

  const SCRIPT_HASH_SIZE: nat := 32
  const TX_INPUT_SIZE: nat := 44

  type Hash = s: seq<byte> | |s| == SCRIPT_HASH_SIZE witness seq(SCRIPT_HASH_SIZE, _ => 0)

  // A serialized transaction input: since, then the out point.
  type TxIn = s: seq<byte> | |s| == TX_INPUT_SIZE witness seq(TX_INPUT_SIZE, _ => 0)

  /** A script with the hash that identifies it on chain. */
  datatype Script = Script(codeHash: Hash, args: seq<byte>, hash: Hash)

  datatype Cell = Cell(capacity: U64, lock: Script, typ: Option<Script>, data: seq<byte>)

  /** `refs[k]` says which cell input `k` spends; `inputs[k]` is that cell. */
  datatype Tx = Tx(refs: seq<TxIn>, inputs: seq<Cell>, outputs: seq<Cell>)

  // The bytes of a 16-byte stack buffer.
  type Buffer = s: seq<byte> | |s| == UDT_AMOUNT_SIZE witness ZEROS8 + ZEROS8

  /** What was in the four buffers of one default check before amounts were loaded into them. */
  datatype Buffers = Buffers(before1: Buffer, after1: Buffer, before2: Buffer, after2: Buffer)

  /**
   * What is fixed when the scripts are compiled, and what one run of a script finds in its fresh buffers: those of
   * the default check at each index it scans, and that of the creation check.
   */
  datatype Consts = Consts(
    poolCode: Hash, lockCode: Hash, tokenCode: Hash, feeLock: Hash, scanned: seq<Buffers>, created: Buffer)
  {
    function At(index: nat): Buffers {
      if index < |scanned| then scanned[index] else Buffers(created, created, created, created)
    }
  }

  /** Equal but for what runs find in their buffers. */
  predicate SameCodes(c: Consts, d: Consts) {
    c.poolCode == d.poolCode && c.lockCode == d.lockCode && c.tokenCode == d.tokenCode && c.feeLock == d.feeLock
  }

  const CKB_HASH: Hash := ZEROS8 + ZEROS8 + ZEROS8 + ZEROS8

  const ZEROS8: seq<byte> := [0, 0, 0, 0, 0, 0, 0, 0]

  /** The cells of a type script's group. */
  function TypeGroup(cells: seq<Cell>, hash: Hash): seq<Cell> {
    if cells == [] then []
    else (if HasType(cells[0], hash) then [cells[0]] else []) + TypeGroup(cells[1..], hash)
  }

  predicate HasType(c: Cell, hash: Hash) {
    c.typ.Some? && c.typ.value.hash == hash
  }

  /** The cells of a lock script's group. */
  function LockGroup(cells: seq<Cell>, hash: Hash): seq<Cell> {
    if cells == [] then []
    else (if cells[0].lock.hash == hash then [cells[0]] else []) + LockGroup(cells[1..], hash)
  }

  /** Loading into a buffer of 16 bytes: what does not arrive is what was there before. */
  function LoadInto(buf: Buffer, data: seq<byte>, limit: nat): Buffer {
    var n := if |data| < limit then |data| else limit;
    var m := if n < UDT_AMOUNT_SIZE then n else UDT_AMOUNT_SIZE;
    data[..m] + buf[m..]
  }

  // ----- groups

  lemma {:induction false} GroupEmpty(cells: seq<Cell>, hash: Hash)
    ensures TypeGroup(cells, hash) == [] <==> forall k :: 0 <= k < |cells| ==> !HasType(cells[k], hash)
  {
    if cells != [] {
      GroupEmpty(cells[1..], hash);
      if HasType(cells[0], hash) {
        assert TypeGroup(cells, hash) != [];
      } else {
        assert forall k :: 1 <= k < |cells| ==> cells[k] == cells[1..][k - 1];
        assert forall k :: 0 <= k < |cells| - 1 ==> cells[1..][k] == cells[k + 1];
      }
    }
  }

  /** A group of one: exactly one cell carries the type. */
  lemma {:induction false} GroupOfOne(cells: seq<Cell>, hash: Hash) returns (at: nat)
    requires |TypeGroup(cells, hash)| == 1
    ensures at < |cells| && HasType(cells[at], hash)
    ensures forall k :: 0 <= k < |cells| && HasType(cells[k], hash) ==> k == at
  {
    if HasType(cells[0], hash) {
      at := 0;
      GroupEmpty(cells[1..], hash);
      assert forall k :: 1 <= k < |cells| ==> cells[k] == cells[1..][k - 1];
    } else {
      var rest := GroupOfOne(cells[1..], hash);
      at := rest + 1;
      assert forall k :: 1 <= k < |cells| ==> cells[k] == cells[1..][k - 1];
    }
  }

  /** Every cell of a type script's group carries that type. */
  lemma {:induction false} GroupTyped(cells: seq<Cell>, hash: Hash, k: nat)
    requires k < |TypeGroup(cells, hash)|
    ensures HasType(TypeGroup(cells, hash)[k], hash)
  {
    if HasType(cells[0], hash) {
      if k > 0 {
        GroupTyped(cells[1..], hash, k - 1);
      }
    } else {
      GroupTyped(cells[1..], hash, k);
    }
  }

  lemma {:induction false} GroupMember(cells: seq<Cell>, hash: Hash, k: nat) returns (j: nat)
    requires k < |TypeGroup(cells, hash)|
    ensures j < |cells| && cells[j] == TypeGroup(cells, hash)[k]
  {
    if HasType(cells[0], hash) {
      j := 0;
      if k > 0 {
        j := GroupMember(cells[1..], hash, k - 1);
        j := j + 1;
      }
    } else {
      j := GroupMember(cells[1..], hash, k);
      j := j + 1;
    }
  }

  lemma GroupHas(cells: seq<Cell>, hash: Hash, k: nat)
    requires k < |cells| && HasType(cells[k], hash)
    ensures TypeGroup(cells, hash) != []
  {
    GroupEmpty(cells, hash);
  }

  predicate Carries(cells: seq<Cell>, hash: Hash) {
    exists k :: 0 <= k < |cells| && HasType(cells[k], hash)
  }

  lemma JoinCells(x: seq<Cell>, y: seq<Cell>, z: seq<Cell>)
    ensures x + (y + z) == (x + y) + z
  {
  }

  lemma {:induction false} GroupAppend(a: seq<Cell>, b: seq<Cell>, hash: Hash)
    ensures TypeGroup(a + b, hash) == TypeGroup(a, hash) + TypeGroup(b, hash)
  {
    if a == [] {
      assert a + b == b;
    } else {
      var ab := a + b;
      GroupAppend(a[1..], b, hash);
      assert ab[0] == a[0] && ab[1..] == a[1..] + b;
      JoinCells(if HasType(a[0], hash) then [a[0]] else [], TypeGroup(a[1..], hash), TypeGroup(b, hash));
    }
  }

  lemma NoGroup(cells: seq<Cell>, hash: Hash)
    requires !Carries(cells, hash)
    ensures TypeGroup(cells, hash) == []
  {
    GroupEmpty(cells, hash);
  }
}
