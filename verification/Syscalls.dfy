/** The system calls, as lookups on a transaction. */
module Syscalls {
  import opened Numbers
  import opened ByteOrder
  import opened ScriptLayout
  import opened ResultCodes
  import opened Transaction

  datatype Field = LOCK | LOCK_HASH | TYPE | TYPE_HASH | CAPACITY | DATA

  /** A load succeeds with the item's bytes, or fails with one of two codes. */
  datatype Load = Loaded(bytes: seq<byte>) | OutOfBound | Missing {
    function Code(): int {
      match this
      case Loaded(_) => CKB_SUCCESS
      case OutOfBound => INDEX_OUT_OF_BOUND_ERROR
      case Missing => ITEM_MISSING_ERROR
    }
  }

  const HASH_TYPE: byte := 1

  function Serialize(s: Script): seq<byte> {
    EncodeScript(s.codeHash, HASH_TYPE, s.args)
  }

  /** `ckb_load_cell_by_field` and `ckb_load_cell_data` on the cells of one source. */
  function LoadField(cells: seq<Cell>, index: nat, field: Field): Load {
    if index >= |cells| then OutOfBound
    else
      var cell := cells[index];
      match field
      case LOCK => Loaded(Serialize(cell.lock))
      case LOCK_HASH => Loaded(cell.lock.hash)
      case TYPE => if cell.typ.None? then Missing else Loaded(Serialize(cell.typ.value))
      case TYPE_HASH => if cell.typ.None? then Missing else Loaded(cell.typ.value.hash)
      case CAPACITY => Loaded(ToLe(cell.capacity, 8))
      case DATA => Loaded(cell.data)
  }

  lemma SerializedFields(s: Script)
    ensures var b := Serialize(s);
      && |b| == ARGS_START + |s.args|
      && b[CODE_HASH_START..HASH_TYPE_START] == s.codeHash
      && b[ARGS_START..] == s.args
  {
    ScriptPositions(s.codeHash, HASH_TYPE, s.args);
  }
}
