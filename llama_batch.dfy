/**
 * The batch helpers of llama_jni.cpp (`batch_clear`, `batch_add`).
 *
 * A `llama_batch` is a set of parallel arrays allocated once by
 * `llama_batch_init` plus a counter `n_tokens` of the slots in use. The
 * batches built here have one sequence per token (`n_seq_max = 1`), so the
 * per-slot sequence list `seq_id[k]` is modelled by its only element.
 */
module LlamaBatch {

  /** One slot of a batch as `llama_decode` reads it. */
  datatype Entry = Entry(token: int, pos: int, nSeqId: int, seqId: int, logits: int)

  class Batch {
    /** The number of slots in use. */
    var nTokens: int
    /** The number of slots allocated by `llama_batch_init`. */
    const capacity: nat
    const token: array<int>
    const pos: array<int>
    const nSeqId: array<int>
    const seqId: array<int>
    const logits: array<int>

    ghost predicate Valid()
      reads this
    {
      token.Length == capacity && pos.Length == capacity && nSeqId.Length == capacity &&
      seqId.Length == capacity && logits.Length == capacity &&
      token != pos && token != nSeqId && token != seqId && token != logits &&
      pos != nSeqId && pos != seqId && pos != logits &&
      nSeqId != seqId && nSeqId != logits && seqId != logits &&
      0 <= nTokens <= capacity
    }

    /** `llama_batch_init(capacity, 0, 1)`: every array has `capacity` slots
        and no slot is in use. */
    constructor (capacity: nat)
      ensures Valid() && this.capacity == capacity && nTokens == 0
      ensures fresh(token) && fresh(pos) && fresh(nSeqId) && fresh(seqId) && fresh(logits)
    {
      this.capacity := capacity;
      token := new int[capacity];
      pos := new int[capacity];
      nSeqId := new int[capacity];
      seqId := new int[capacity];
      logits := new int[capacity];
      nTokens := 0;
    }

    /** The slots in use, in order. */
    function Entries(): (es: seq<Entry>)
      reads this, token, pos, nSeqId, seqId, logits
      requires Valid()
      ensures |es| == nTokens
    {
      seq(nTokens, k requires 0 <= k < nTokens && Valid() reads this, token, pos, nSeqId, seqId, logits =>
        Entry(token[k], pos[k], nSeqId[k], seqId[k], logits[k]))
    }

    /** `batch_clear`: only the counter is reset; the arrays keep their
        contents. */
    method Clear()
      requires Valid()
      modifies this
      ensures Valid() && nTokens == 0 && Entries() == []
    {
      nTokens := 0;
    }

    /** `batch_add`: fills slot `n_tokens` and bumps the counter by one. The
        source does not check the capacity, so its callers must leave a free
        slot. */
    method Add(id: int, p: int, s: int, withLogits: bool)
      requires Valid() && nTokens < capacity
      modifies this, token, pos, nSeqId, seqId, logits
      ensures Valid() && nTokens == old(nTokens) + 1
      ensures Entries() == old(Entries()) + [Entry(id, p, 1, s, if withLogits then 1 else 0)]
      ensures forall k :: 0 <= k < capacity && k != old(nTokens) ==>
        token[k] == old(token[k]) && pos[k] == old(pos[k]) && nSeqId[k] == old(nSeqId[k]) &&
        seqId[k] == old(seqId[k]) && logits[k] == old(logits[k])
    {
      token[nTokens] := id;
      pos[nTokens] := p;
      nSeqId[nTokens] := 1;
      seqId[nTokens] := s;
      logits[nTokens] := if withLogits then 1 else 0;
      nTokens := nTokens + 1;
    }
  }
}
