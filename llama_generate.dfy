/**
 * The bookkeeping of `generateNative` in llama_jni.cpp, and the parameter
 * defaults of `createContextNative` and of the sampler chain.
 *
 * The llama.cpp calls are not visible; they are the fields of a `Llama`
 * record. A call whose result depends on the state of the context
 * (`llama_decode`, `llama_sampler_sample`) receives every batch decoded
 * before it, so its result may depend on all of them. A cancellation
 * requested by another thread is what `cancelled(i)` says the check at
 * generation step i reads.
 */
module LlamaGenerate {
  import opened Wrappers
  import opened LlamaBatch

  // ---------------------------------------------------------------------------
  // Parameter defaults
  // ---------------------------------------------------------------------------

  /** A positive setting is kept; zero or a negative one is replaced by the
      default d. */
  function OrDefault(x: int, d: int): (r: int)
    requires d > 0
    ensures r > 0 && (r == x <==> x > 0) && (x <= 0 ==> r == d)
  {
    if x > 0 then x else d
  }

  function OrDefaultReal(x: real, d: real): (r: real)
    requires d > 0.0
    ensures r > 0.0 && (r == x <==> x > 0.0) && (x <= 0.0 ==> r == d)
  {
    if x > 0.0 then x else d
  }

  /** Applying a default twice is applying it once, whatever the second
      default is: the first leaves a positive value. */
  lemma OrDefaultIdempotent(x: int, d: int, e: int)
    requires d > 0 && e > 0
    ensures OrDefault(OrDefault(x, d), e) == OrDefault(x, d)
  {
  }

  datatype ContextParams = ContextParams(nCtx: int, nBatch: int, nThreads: int, nThreadsBatch: int)

  /** The context parameters of `createContextNative`: 2048 tokens of
      context and 512 per batch unless positive values are given; the
      thread count falls back to the hardware's (which may report 0). */
  function ContextDefaults(nCtx: int, nBatch: int, nThreads: int, hardwareThreads: nat): (p: ContextParams)
    ensures p.nCtx > 0 && p.nBatch > 0 && p.nThreads >= 0 && p.nThreadsBatch == p.nThreads
    ensures (p.nCtx == nCtx <==> nCtx > 0) && (p.nBatch == nBatch <==> nBatch > 0)
    ensures nCtx <= 0 ==> p.nCtx == 2048
    ensures nBatch <= 0 ==> p.nBatch == 512
    ensures p.nThreads == (if nThreads > 0 then nThreads else hardwareThreads)
  {
    var threads := if nThreads > 0 then nThreads else hardwareThreads;
    ContextParams(OrDefault(nCtx, 2048), OrDefault(nBatch, 512), threads, threads)
  }

  /** `createContextNative`: no context for a null model handle or when
      `llama_init_from_model` fails; otherwise one made with the defaults
      applied. */
  function CreateContext(modelPtr: int, nCtx: int, nBatch: int, nThreads: int, hardwareThreads: nat,
                         initSucceeds: ContextParams -> bool): (r: Option<ContextParams>)
    ensures modelPtr == 0 ==> r.None?
    ensures r.Some? ==> r.value.nCtx > 0 && r.value.nBatch > 0 && initSucceeds(r.value)
    ensures r.Some? ==> r.value == ContextDefaults(nCtx, nBatch, nThreads, hardwareThreads)
  {
    if modelPtr == 0 then None
    else
      var p := ContextDefaults(nCtx, nBatch, nThreads, hardwareThreads);
      if initSucceeds(p) then Some(p) else None
  }

  datatype SamplerParams = SamplerParams(topK: int, topP: real, temperature: real)

  /** The sampler chain of `generateNative`: top-k 40, top-p 0.95 and
      temperature 0.8 unless positive values are given. */
  function SamplerDefaults(topK: int, topP: real, temperature: real): (p: SamplerParams)
    ensures p.topK > 0 && p.topP > 0.0 && p.temperature > 0.0
    ensures (p.topK == topK <==> topK > 0) && (topK <= 0 ==> p.topK == 40)
    ensures (p.topP == topP <==> topP > 0.0) && (topP <= 0.0 ==> p.topP == 0.95)
    ensures (p.temperature == temperature <==> temperature > 0.0) && (temperature <= 0.0 ==> p.temperature == 0.8)
  {
    SamplerParams(OrDefault(topK, 40), OrDefaultReal(topP, 0.95), OrDefaultReal(temperature, 0.8))
  }

  // ---------------------------------------------------------------------------
  // The llama.cpp calls
  // ---------------------------------------------------------------------------

  datatype Llama = Llama(
    /** `llama_model_get_vocab` returned a vocabulary */
    hasVocab: bool,
    /** `llama_tokenize(text, capacity)`: the token count, or minus the
        count needed when it exceeds the capacity */
    tokenize: (string, int) -> int,
    /** token i of the text's tokenization */
    tokenAt: (string, nat) -> int,
    /** `llama_n_ctx` */
    nCtx: int,
    /** `llama_n_batch` */
    nBatch: int,
    /** `llama_batch_init` obtained its arrays */
    batchAllocated: bool,
    /** `llama_decode`, given the batches decoded before: 0 on success */
    decode: (seq<seq<Entry>>, seq<Entry>) -> int,
    /** `llama_sampler_chain_init` returned a sampler */
    hasSampler: bool,
    /** `llama_sampler_sample`, given the sampler settings and the batches decoded so far */
    sample: (SamplerParams, seq<seq<Entry>>) -> int,
    /** `llama_vocab_is_eog` */
    isEog: int -> bool,
    /** the text of a token */
    piece: int -> string)

  /** `llama_token_to_piece` into the 255 usable bytes of `token_buf`
      (one `char` each): the length of the text, or minus it when it does
      not fit. */
  function PieceLength(llama: Llama, t: int): (len: int)
    ensures len > 0 ==> len == |llama.piece(t)| <= 255
  {
    var text := llama.piece(t);
    if |text| <= 255 then |text| else -|text|
  }

  // ---------------------------------------------------------------------------
  // What a call to generateNative does, as a function
  // ---------------------------------------------------------------------------

  const ErrNotLoaded := "Error: Model not loaded properly"
  const ErrBusy := "Error: Generation already in progress"
  const ErrVocab := "Error: Failed to get vocabulary"
  const ErrEmptyPrompt := "Error: Empty prompt"
  const ErrTokenize := "Error: Failed to tokenize prompt"
  const ErrZeroTokens := "Error: Prompt tokenized to zero tokens"
  const ErrTooLong := "Error: Prompt too long for context"
  const ErrBatch := "Error: Failed to allocate batch"
  const ErrPrompt := "Error: Failed to process prompt"
  const ErrSampler := "Error: Failed to create sampler"

  /** The messages of the error returns once the busy flag is held. */
  const RunErrors: set<string> := {ErrVocab, ErrEmptyPrompt, ErrTokenize, ErrZeroTokens, ErrTooLong, ErrBatch, ErrPrompt, ErrSampler}

  /** The outcome of a call: the string returned, the batches passed to
      `llama_decode` in order, the pieces handed to the callback in order
      (when one is registered; the reply is built from them either way),
      whether an error was returned, and whether the generation loop
      stopped on the cancel flag. */
  datatype Run = Run(reply: string, decoded: seq<seq<Entry>>, streamed: seq<string>, failed: bool, stopped: bool)

  /** The concatenation of a sequence of sequences. */
  function Flatten<T>(ss: seq<seq<T>>): seq<T>
  {
    if ss == [] then [] else Flatten(ss[..|ss| - 1]) + ss[|ss| - 1]
  }

  /** The token count after the first attempt and, when the buffer of
      |prompt| + 256 tokens was too small, a second one with the size asked
      for plus 100. */
  function PromptTokenCount(llama: Llama, prompt: string): int
  {
    var first := llama.tokenize(prompt, |prompt| + 256);
    if first < 0 then llama.tokenize(prompt, -first + 100) else first
  }

  function PromptTokens(llama: Llama, prompt: string, n: nat): (tokens: seq<int>)
    ensures |tokens| == n
  {
    seq(n, k requires 0 <= k < n => llama.tokenAt(prompt, k))
  }

  /** The slot of prompt token p: at position p, in sequence 0, with logits
      only for the last token. */
  function PromptEntry(tokens: seq<int>, p: nat): Entry
    requires p < |tokens|
  {
    Entry(tokens[p], p, 1, 0, if p == |tokens| - 1 then 1 else 0)
  }

  /** The batch of prompt tokens i .. i + len - 1. */
  function Chunk(tokens: seq<int>, i: nat, len: nat): (c: seq<Entry>)
    requires i + len <= |tokens|
    ensures |c| == len
  {
    seq(len, j requires 0 <= j < len => PromptEntry(tokens, i + j))
  }

  /** The batches of the prompt loop from token i on: chunks of n_batch
      tokens, the last one shorter. */
  function PromptChunks(tokens: seq<int>, nBatch: nat, i: nat): seq<seq<Entry>>
    requires nBatch > 0
    decreases |tokens| - i
  {
    if i >= |tokens| then []
    else
      var len := if nBatch < |tokens| - i then nBatch else |tokens| - i;
      [Chunk(tokens, i, len)] + PromptChunks(tokens, nBatch, i + nBatch)
  }

  datatype Decoded = Decoded(ok: bool, history: seq<seq<Entry>>)

  /** Decode the batches in order after `history`, stopping at the first
      that fails. */
  function DecodeAll(llama: Llama, history: seq<seq<Entry>>, batches: seq<seq<Entry>>): Decoded
    decreases |batches|
  {
    if batches == [] then Decoded(true, history)
    else
      var next := history + [batches[0]];
      if llama.decode(history, batches[0]) != 0 then Decoded(false, next)
      else DecodeAll(llama, next, batches[1..])
  }

  /** The generation loop from step i on, with n_cur = nCur, the text so far
      and the pieces streamed so far. */
  function GenerationLoop(llama: Llama, params: SamplerParams, cancelled: nat -> bool, nCtx: int, maxTokens: int,
                          i: nat, nCur: int, history: seq<seq<Entry>>, reply: string, streamed: seq<string>): (r: Run)
    ensures !r.failed
    decreases maxTokens - i
  {
    if i >= maxTokens || cancelled(i) then Run(reply, history, streamed, false, i < maxTokens)
    else
      var t := llama.sample(params, history);
      if llama.isEog(t) then Run(reply, history, streamed, false, false)
      else
        var len := PieceLength(llama, t);
        var reply' := if len > 0 then reply + llama.piece(t) else reply;
        var streamed' := if len > 0 then streamed + [llama.piece(t)] else streamed;
        if nCur >= nCtx - 1 then Run(reply', history, streamed', false, false)
        else
          var batch := [Entry(t, nCur, 1, 0, 1)];
          var history' := history + [batch];
          if llama.decode(history, batch) != 0 then Run(reply', history', streamed', false, false)
          else GenerationLoop(llama, params, cancelled, nCtx, maxTokens, i + 1, nCur + 1, history', reply', streamed')
  }

  /** `generateNative` once the busy flag is held. */
  function GenerateRun(llama: Llama, prompt: string, maxTokens: int, temperature: real, topP: real, topK: int,
                       cancelled: nat -> bool): Run
  {
    if !llama.hasVocab then Run(ErrVocab, [], [], true, false)
    else if |prompt| == 0 then Run(ErrEmptyPrompt, [], [], true, false)
    else
      var n := PromptTokenCount(llama, prompt);
      if n < 0 then Run(ErrTokenize, [], [], true, false)
      else if n == 0 then Run(ErrZeroTokens, [], [], true, false)
      else if n >= llama.nCtx then Run(ErrTooLong, [], [], true, false)
      else if !llama.batchAllocated then Run(ErrBatch, [], [], true, false)
      else Answer(llama, PromptTokens(llama, prompt, n), OrDefault(llama.nBatch, 512),
                  SamplerDefaults(topK, topP, temperature), maxTokens, cancelled)
  }

  /** `generateNative` once the prompt is tokenized and the batch allocated:
      decode the prompt in batches of n_batch, then generate from position
      n with the sampler chain. */
  function Answer(llama: Llama, tokens: seq<int>, nBatch: nat, params: SamplerParams, maxTokens: int,
                  cancelled: nat -> bool): Run
    requires nBatch > 0
  {
    var d := DecodeAll(llama, [], PromptChunks(tokens, nBatch, 0));
    if !d.ok then Run(ErrPrompt, d.history, [], true, false)
    else if !llama.hasSampler then Run(ErrSampler, d.history, [], true, false)
    else GenerationLoop(llama, params, cancelled, llama.nCtx, maxTokens, 0, |tokens|, d.history, "", [])
  }

  // ---------------------------------------------------------------------------
  // The native function
  // ---------------------------------------------------------------------------

  /** The process-wide flags `g_is_generating` and `g_cancel_requested`. */
  class Generator {
    var generating: bool
    var cancelRequested: bool

    constructor ()
      ensures !generating && !cancelRequested
    {
      generating := false;
      cancelRequested := false;
    }

    /** `cancelGenerationNative`: only the request flag is set; a running
        generation reads it before each step. */
    method Cancel()
      modifies this
      ensures cancelRequested && generating == old(generating)
    {
      cancelRequested := true;
    }

    /** `generateNative`. Null handles are refused before the busy flag is
        looked at; a call that finds the flag set refuses and leaves it
        set; a call that takes the flag clears it on every return. */
    method Generate(ctxPtr: int, modelPtr: int, llama: Llama, prompt: string, maxTokens: int,
                    temperature: real, topP: real, topK: int, cancelled: nat -> bool)
      returns (reply: string, decoded: seq<seq<Entry>>, streamed: seq<string>)
      modifies this
      ensures generating == old(generating)
      ensures ctxPtr == 0 || modelPtr == 0 ==>
        reply == ErrNotLoaded && decoded == [] && streamed == [] && cancelRequested == old(cancelRequested)
      ensures ctxPtr != 0 && modelPtr != 0 && old(generating) ==>
        reply == ErrBusy && decoded == [] && streamed == [] && cancelRequested == old(cancelRequested)
      ensures ctxPtr != 0 && modelPtr != 0 && !old(generating) ==>
        Run(reply, decoded, streamed, reply in RunErrors && streamed == [], cancelRequested) ==
          GenerateRun(llama, prompt, maxTokens, temperature, topP, topK, cancelled)
    {
      if ctxPtr == 0 || modelPtr == 0 {
        return ErrNotLoaded, [], [];
      }
      if generating {
        return ErrBusy, [], [];
      }
      generating := true;
      cancelRequested := false;
      var stopped;
      reply, decoded, streamed, stopped := Respond(llama, prompt, maxTokens, temperature, topP, topK, cancelled);
      // nothing lowers the flag again: a cancel that stopped the loop is still raised
      cancelRequested := stopped;
      generating := false;
    }
  }

  /** The body of `generateNative` while the busy flag is held: the checks
      of the vocabulary and the prompt, tokenization with one retry, the
      context-length check and the batch allocation. */
  method Respond(llama: Llama, prompt: string, maxTokens: int, temperature: real, topP: real, topK: int,
                 cancelled: nat -> bool)
    returns (reply: string, decoded: seq<seq<Entry>>, streamed: seq<string>, stopped: bool)
    ensures Run(reply, decoded, streamed, reply in RunErrors && streamed == [], stopped) ==
      GenerateRun(llama, prompt, maxTokens, temperature, topP, topK, cancelled)
  {
    if !llama.hasVocab {
      return ErrVocab, [], [], false;
    }
    if |prompt| == 0 {
      return ErrEmptyPrompt, [], [], false;
    }
    var maxPromptTokens := |prompt| + 256;
    var n := llama.tokenize(prompt, maxPromptTokens);
    if n < 0 {
      n := llama.tokenize(prompt, -n + 100);
    }
    if n < 0 {
      return ErrTokenize, [], [], false;
    }
    if n == 0 {
      return ErrZeroTokens, [], [], false;
    }
    var tokens := PromptTokens(llama, prompt, n);
    var nCtx := llama.nCtx;
    var nBatch := llama.nBatch;
    if nBatch <= 0 {
      nBatch := 512;
    }
    if n >= nCtx {
      return ErrTooLong, [], [], false;
    }
    var batchSize := if nBatch > n then nBatch else n;
    var batch := new Batch(batchSize);
    if !llama.batchAllocated {
      return ErrBatch, [], [], false;
    }
    var params := SamplerParams(if topK > 0 then topK else 40, if topP > 0.0 then topP else 0.95,
                                if temperature > 0.0 then temperature else 0.8);
    reply, decoded, streamed, stopped := AnswerTokens(batch, llama, tokens, nBatch, params, maxTokens, cancelled);
  }

  /** The prompt loop, the sampler creation and the generation loop. */
  method AnswerTokens(batch: Batch, llama: Llama, tokens: seq<int>, nBatch: nat, params: SamplerParams,
                      maxTokens: int, cancelled: nat -> bool)
    returns (reply: string, decoded: seq<seq<Entry>>, streamed: seq<string>, stopped: bool)
    requires batch.Valid() && nBatch > 0 && batch.capacity >= nBatch
    modifies batch, batch.token, batch.pos, batch.nSeqId, batch.seqId, batch.logits
    ensures Run(reply, decoded, streamed, reply in RunErrors && streamed == [], stopped) ==
      Answer(llama, tokens, nBatch, params, maxTokens, cancelled)
  {
    var ok, nCur, promptDecoded := ProcessPrompt(batch, tokens, nBatch, llama);
    if !ok {
      return ErrPrompt, promptDecoded, [], false;
    }
    if !llama.hasSampler {
      return ErrSampler, promptDecoded, [], false;
    }
    reply, decoded, streamed, stopped := GenerateTokens(batch, llama, params, cancelled, llama.nCtx, maxTokens, nCur, promptDecoded);
    GenerationReply(llama, params, cancelled, llama.nCtx, maxTokens, 0, nCur, promptDecoded, "", []);
  }

  /** The prompt loop: chunks of at most n_batch tokens, each added to the
      cleared batch and decoded; the first decode that fails ends it. */
  method ProcessPrompt(batch: Batch, tokens: seq<int>, nBatch: nat, llama: Llama)
    returns (ok: bool, nCur: nat, decoded: seq<seq<Entry>>)
    requires batch.Valid() && nBatch > 0 && batch.capacity >= nBatch
    modifies batch, batch.token, batch.pos, batch.nSeqId, batch.seqId, batch.logits
    ensures batch.Valid()
    ensures Decoded(ok, decoded) == DecodeAll(llama, [], PromptChunks(tokens, nBatch, 0))
    ensures ok ==> nCur == |tokens|
  {
    var n := |tokens|;
    var i := 0;
    nCur := 0;
    decoded := [];
    while i < n
      invariant batch.Valid()
      invariant nCur == if i < n then i else n
      invariant DecodeAll(llama, decoded, PromptChunks(tokens, nBatch, i)) == DecodeAll(llama, [], PromptChunks(tokens, nBatch, 0))
      decreases n - i
    {
      var nEval := if nBatch < n - i then nBatch else n - i;
      FillChunk(batch, tokens, i, nEval);
      var entries := batch.Entries();
      assert PromptChunks(tokens, nBatch, i) == [entries] + PromptChunks(tokens, nBatch, i + nBatch);
      var ret := llama.decode(decoded, entries);
      decoded := decoded + [entries];
      if ret != 0 {
        ok := false;
        return;
      }
      nCur := nCur + nEval;
      i := i + nBatch;
    }
    ok := true;
  }

  /** The inner loop of the prompt loop: the batch is cleared and then holds
      prompt tokens i .. i + len - 1 at their own positions. */
  method FillChunk(batch: Batch, tokens: seq<int>, i: nat, len: nat)
    requires batch.Valid() && len <= batch.capacity && i + len <= |tokens|
    modifies batch, batch.token, batch.pos, batch.nSeqId, batch.seqId, batch.logits
    ensures batch.Valid() && batch.Entries() == Chunk(tokens, i, len)
  {
    batch.Clear();
    for j := 0 to len
      invariant batch.Valid() && batch.nTokens == j
      invariant batch.Entries() == Chunk(tokens, i, j)
    {
      var isLast := i + j == |tokens| - 1;
      batch.Add(tokens[i + j], i + j, 0, isLast);
      assert Chunk(tokens, i, j + 1) == Chunk(tokens, i, j) + [PromptEntry(tokens, i + j)];
    }
  }

  /** The generation loop: sample, stop at end of generation, append and
      stream the token's text, stop at the context limit, otherwise decode
      the token alone at position n_cur. */
  method GenerateTokens(batch: Batch, llama: Llama, params: SamplerParams, cancelled: nat -> bool, nCtx: int,
                        maxTokens: int, nPrompt: nat, history: seq<seq<Entry>>)
    returns (reply: string, decoded: seq<seq<Entry>>, streamed: seq<string>, stopped: bool)
    requires batch.Valid() && batch.capacity >= 1
    modifies batch, batch.token, batch.pos, batch.nSeqId, batch.seqId, batch.logits
    ensures Run(reply, decoded, streamed, false, stopped) ==
      GenerationLoop(llama, params, cancelled, nCtx, maxTokens, 0, nPrompt, history, "", [])
  {
    ghost var target := GenerationLoop(llama, params, cancelled, nCtx, maxTokens, 0, nPrompt, history, "", []);
    var nCur := nPrompt;
    reply, decoded, streamed, stopped := "", history, [], false;
    var i := 0;
    while i < maxTokens
      invariant batch.Valid()
      invariant GenerationLoop(llama, params, cancelled, nCtx, maxTokens, i, nCur, decoded, reply, streamed) == target
      invariant !stopped
      decreases maxTokens - i
    {
      if cancelled(i) {
        stopped := true;
        break;
      }
      var t := llama.sample(params, decoded);
      if llama.isEog(t) {
        break;
      }
      ghost var before := decoded;
      var len := PieceLength(llama, t);
      if len > 0 {
        var text := llama.piece(t);
        reply := reply + text;
        streamed := streamed + [text];
      }
      if nCur >= nCtx - 1 {
        break;
      }
      batch.Clear();
      batch.Add(t, nCur, 0, true);
      var entries := batch.Entries();
      assert entries == [Entry(t, nCur, 1, 0, 1)];
      nCur := nCur + 1;
      var ret := llama.decode(decoded, entries);
      decoded := decoded + [entries];
      if ret != 0 {
        break;
      }
      i := i + 1;
    }
  }

  // ---------------------------------------------------------------------------
  // Properties
  // ---------------------------------------------------------------------------

  lemma {:induction false} FlattenAppend<T>(a: seq<seq<T>>, b: seq<seq<T>>)
    ensures Flatten(a + b) == Flatten(a) + Flatten(b)
    decreases |b|
  {
    if b == [] {
      assert a + b == a;
    } else {
      var b', last := b[..|b| - 1], b[|b| - 1];
      var ab := a + b;
      assert ab[..|ab| - 1] == a + b' && ab[|ab| - 1] == last;
      assert Flatten(ab) == Flatten(a + b') + last;
      FlattenAppend(a, b');
      assert Flatten(b) == Flatten(b') + last;
    }
  }

  lemma FlattenCons<T>(c: seq<T>, rest: seq<seq<T>>)
    ensures Flatten([c] + rest) == c + Flatten(rest)
  {
    FlattenAppend([c], rest);
    assert [c][..0] == [];
  }

  /** The prompt loop covers prompt tokens i .. n - 1 exactly once, in
      order. */
  lemma {:induction false} PromptChunksCover(tokens: seq<int>, nBatch: nat, i: nat)
    requires nBatch > 0 && i <= |tokens|
    ensures var flat := Flatten(PromptChunks(tokens, nBatch, i));
      |flat| == |tokens| - i && forall p :: 0 <= p < |flat| ==> flat[p] == PromptEntry(tokens, i + p)
    decreases |tokens| - i
  {
    if i < |tokens| {
      var len := if nBatch < |tokens| - i then nBatch else |tokens| - i;
      var rest := PromptChunks(tokens, nBatch, i + nBatch);
      if i + nBatch < |tokens| {
        PromptChunksCover(tokens, nBatch, i + nBatch);
      } else {
        assert rest == [];
      }
      FlattenCons(Chunk(tokens, i, len), rest);
    }
  }

  /** Together the prompt batches hold every prompt token once, in order,
      at positions 0 .. n - 1, in sequence 0, and only the last token asks
      for logits. */
  lemma PromptCoversTokens(tokens: seq<int>, nBatch: nat)
    requires nBatch > 0
    ensures var flat := Flatten(PromptChunks(tokens, nBatch, 0));
      |flat| == |tokens| &&
      forall p :: 0 <= p < |flat| ==>
        flat[p].token == tokens[p] && flat[p].pos == p && flat[p].nSeqId == 1 && flat[p].seqId == 0 &&
        (flat[p].logits == 1 <==> p == |tokens| - 1) && (flat[p].logits == 0 <==> p != |tokens| - 1)
  {
    PromptChunksCover(tokens, nBatch, 0);
  }

  /** Every prompt batch holds between 1 and n_batch tokens, and there are
      ceil((n - i) / n_batch) of them. */
  lemma {:induction false} PromptChunkSizes(tokens: seq<int>, nBatch: nat, i: nat)
    requires nBatch > 0
    ensures var cs := PromptChunks(tokens, nBatch, i);
      (forall k :: 0 <= k < |cs| ==> 0 < |cs[k]| <= nBatch && |cs[k]| <= |tokens| - i) &&
      (i < |tokens| ==> (|cs| - 1) * nBatch < |tokens| - i <= |cs| * nBatch) &&
      (i >= |tokens| ==> cs == [])
    decreases |tokens| - i
  {
    if i < |tokens| {
      PromptChunkSizes(tokens, nBatch, i + nBatch);
      var cs := PromptChunks(tokens, nBatch, i);
      var rest := PromptChunks(tokens, nBatch, i + nBatch);
      assert |cs| == |rest| + 1;
      assert (|cs| - 1) * nBatch == |rest| * nBatch;
      assert |cs| * nBatch == |rest| * nBatch + nBatch;
    }
  }

  /** A generation batch: the sampled token alone, at the next position,
      asking for logits; its position leaves room for one more token in the
      context. */
  ghost predicate GenerationBatches(bs: seq<seq<Entry>>, start: int, nCtx: int)
  {
    forall k :: 0 <= k < |bs| ==>
      |bs[k]| == 1 && bs[k][0].pos == start + k && bs[k][0].pos <= nCtx - 2 &&
      bs[k][0].nSeqId == 1 && bs[k][0].seqId == 0 && bs[k][0].logits == 1
  }

  function Remaining(maxTokens: int, i: nat): nat
  {
    if maxTokens > i then maxTokens - i else 0
  }

  /** The prompt loop passes the batches to `llama_decode` in order: all of
      them when every decode succeeds, otherwise those up to and including
      the first that fails. */
  lemma {:induction false} DecodeAllPrefix(llama: Llama, history: seq<seq<Entry>>, batches: seq<seq<Entry>>)
    ensures var r := DecodeAll(llama, history, batches);
      (r.ok ==> r.history == history + batches) &&
      (!r.ok ==> |history| < |r.history| <= |history| + |batches| &&
                 r.history == history + batches[..|r.history| - |history|])
    decreases |batches|
  {
    if batches != [] && llama.decode(history, batches[0]) == 0 {
      var next := history + [batches[0]];
      var r := DecodeAll(llama, next, batches[1..]);
      DecodeAllPrefix(llama, next, batches[1..]);
      if r.ok {
        assert [batches[0]] + batches[1..] == batches;
      } else {
        var k := |r.history| - |next|;
        assert batches[..k + 1] == [batches[0]] + batches[1..][..k];
      }
    }
  }

  /** The generation loop only appends to the decoded batches:
      single-token batches at positions n_cur, n_cur + 1, ... below
      n_ctx - 1, at most one per remaining step. */
  lemma {:induction false} GenerationDecodes(llama: Llama, params: SamplerParams, cancelled: nat -> bool, nCtx: int,
                                             maxTokens: int, i: nat, nCur: int, history: seq<seq<Entry>>,
                                             reply: string, streamed: seq<string>)
    ensures var r := GenerationLoop(llama, params, cancelled, nCtx, maxTokens, i, nCur, history, reply, streamed);
      |history| <= |r.decoded| && r.decoded[..|history|] == history &&
      GenerationBatches(r.decoded[|history|..], nCur, nCtx) &&
      |r.decoded| - |history| <= Remaining(maxTokens, i)
    decreases maxTokens - i
  {
    var r := GenerationLoop(llama, params, cancelled, nCtx, maxTokens, i, nCur, history, reply, streamed);
    if i < maxTokens && !cancelled(i) {
      var t := llama.sample(params, history);
      if !llama.isEog(t) && nCur < nCtx - 1 {
        var len := PieceLength(llama, t);
        var reply' := if len > 0 then reply + llama.piece(t) else reply;
        var streamed' := if len > 0 then streamed + [llama.piece(t)] else streamed;
        var batch := [Entry(t, nCur, 1, 0, 1)];
        var history' := history + [batch];
        if llama.decode(history, batch) == 0 {
          GenerationDecodes(llama, params, cancelled, nCtx, maxTokens, i + 1, nCur + 1, history', reply', streamed');
          assert r.decoded[|history|..] == [batch] + r.decoded[|history'|..];
        } else {
          assert r.decoded[|history|..] == [batch];
        }
      } else {
        assert r.decoded[|history|..] == [];
      }
    } else {
      assert r.decoded[|history|..] == [];
    }
  }

  /** The generation loop only appends to the streamed pieces, at most one
      per remaining step, each non-empty and at most 255 bytes. */
  lemma {:induction false} GenerationPieces(llama: Llama, params: SamplerParams, cancelled: nat -> bool, nCtx: int,
                                            maxTokens: int, i: nat, nCur: int, history: seq<seq<Entry>>,
                                            reply: string, streamed: seq<string>)
    ensures var r := GenerationLoop(llama, params, cancelled, nCtx, maxTokens, i, nCur, history, reply, streamed);
      |streamed| <= |r.streamed| && r.streamed[..|streamed|] == streamed &&
      |r.streamed| - |streamed| <= Remaining(maxTokens, i) &&
      (forall k :: |streamed| <= k < |r.streamed| ==> 0 < |r.streamed[k]| <= 255)
    decreases maxTokens - i
  {
    if i < maxTokens && !cancelled(i) && !llama.isEog(llama.sample(params, history)) {
      var t := llama.sample(params, history);
      var len := PieceLength(llama, t);
      var reply' := if len > 0 then reply + llama.piece(t) else reply;
      var streamed' := if len > 0 then streamed + [llama.piece(t)] else streamed;
      var batch := [Entry(t, nCur, 1, 0, 1)];
      if nCur < nCtx - 1 && llama.decode(history, batch) == 0 {
        GenerationPieces(llama, params, cancelled, nCtx, maxTokens, i + 1, nCur + 1, history + [batch], reply', streamed');
      }
    }
  }

  /** The text the generation loop builds grows by exactly the pieces it
      streams. */
  lemma {:induction false} GenerationText(llama: Llama, params: SamplerParams, cancelled: nat -> bool, nCtx: int,
                                          maxTokens: int, i: nat, nCur: int, history: seq<seq<Entry>>,
                                          reply: string, streamed: seq<string>)
    ensures var r := GenerationLoop(llama, params, cancelled, nCtx, maxTokens, i, nCur, history, reply, streamed);
      |streamed| <= |r.streamed| && r.reply == reply + Flatten(r.streamed[|streamed|..])
    decreases maxTokens - i
  {
    var r := GenerationLoop(llama, params, cancelled, nCtx, maxTokens, i, nCur, history, reply, streamed);
    if i < maxTokens && !cancelled(i) && !llama.isEog(llama.sample(params, history)) {
      var t := llama.sample(params, history);
      var len := PieceLength(llama, t);
      var reply' := if len > 0 then reply + llama.piece(t) else reply;
      var streamed' := if len > 0 then streamed + [llama.piece(t)] else streamed;
      assert reply' == reply + Flatten(streamed'[|streamed|..]) by {
        if len > 0 {
          assert streamed'[|streamed|..] == [llama.piece(t)];
          FlattenCons(llama.piece(t), []);
        } else {
          assert streamed'[|streamed|..] == [];
        }
      }
      var batch := [Entry(t, nCur, 1, 0, 1)];
      if nCur < nCtx - 1 && llama.decode(history, batch) == 0 {
        GenerationText(llama, params, cancelled, nCtx, maxTokens, i + 1, nCur + 1, history + [batch], reply', streamed');
        GenerationPieces(llama, params, cancelled, nCtx, maxTokens, i + 1, nCur + 1, history + [batch], reply', streamed');
        assert r.streamed[|streamed|..] == streamed'[|streamed|..] + r.streamed[|streamed'|..];
        FlattenAppend(streamed'[|streamed|..], r.streamed[|streamed'|..]);
      }
    } else {
      assert r.streamed[|streamed|..] == [];
    }
  }

  /** What the native function returns: an error message with nothing
      streamed, or exactly the concatenation of the streamed pieces, of
      which there are at most max_tokens. */
  lemma RunReply(llama: Llama, prompt: string, maxTokens: int, temperature: real, topP: real, topK: int,
                 cancelled: nat -> bool)
    ensures var r := GenerateRun(llama, prompt, maxTokens, temperature, topP, topK, cancelled);
      (r.failed ==> r.reply in RunErrors && r.streamed == []) &&
      (!r.failed ==> r.reply == Flatten(r.streamed) && |r.streamed| <= Remaining(maxTokens, 0))
  {
    var r := GenerateRun(llama, prompt, maxTokens, temperature, topP, topK, cancelled);
    if !r.failed {
      var n := PromptTokenCount(llama, prompt);
      var tokens := PromptTokens(llama, prompt, n);
      var d := DecodeAll(llama, [], PromptChunks(tokens, OrDefault(llama.nBatch, 512), 0));
      GenerationPieces(llama, SamplerDefaults(topK, topP, temperature), cancelled, llama.nCtx, maxTokens,
                       0, |tokens|, d.history, "", []);
      GenerationText(llama, SamplerDefaults(topK, topP, temperature), cancelled, llama.nCtx, maxTokens,
                     0, |tokens|, d.history, "", []);
      assert r.streamed[0..] == r.streamed;
    }
  }

  /** The generation loop reports a stop on the cancel flag only when the
      flag was up at one of its steps, and always when it was up at every
      step it could reach. */
  lemma {:induction false} GenerationStops(llama: Llama, params: SamplerParams, cancelled: nat -> bool, nCtx: int,
                                           maxTokens: int, i: nat, nCur: int, history: seq<seq<Entry>>,
                                           reply: string, streamed: seq<string>)
    ensures var r := GenerationLoop(llama, params, cancelled, nCtx, maxTokens, i, nCur, history, reply, streamed);
      (r.stopped ==> exists j :: i <= j < maxTokens && cancelled(j)) &&
      ((forall j :: i <= j < maxTokens ==> !cancelled(j)) ==> !r.stopped) &&
      (i < maxTokens && cancelled(i) ==> r.stopped && r.streamed == streamed)
    decreases maxTokens - i
  {
    if i < maxTokens && !cancelled(i) {
      var t := llama.sample(params, history);
      if !llama.isEog(t) {
        var len := PieceLength(llama, t);
        var reply' := if len > 0 then reply + llama.piece(t) else reply;
        var streamed' := if len > 0 then streamed + [llama.piece(t)] else streamed;
        var batch := [Entry(t, nCur, 1, 0, 1)];
        if nCur < nCtx - 1 && llama.decode(history, batch) == 0 {
          GenerationStops(llama, params, cancelled, nCtx, maxTokens, i + 1, nCur + 1, history + [batch], reply', streamed');
        }
      }
    }
  }

  /** After `generateNative` the cancel flag is raised exactly when its
      generation loop stopped on it: never for an error return, and never
      when no cancel was seen during the at most max_tokens steps. */
  lemma RunStops(llama: Llama, prompt: string, maxTokens: int, temperature: real, topP: real, topK: int,
                 cancelled: nat -> bool)
    ensures var r := GenerateRun(llama, prompt, maxTokens, temperature, topP, topK, cancelled);
      (r.stopped ==> !r.failed && exists j :: 0 <= j < maxTokens && cancelled(j)) &&
      ((forall j :: 0 <= j < maxTokens ==> !cancelled(j)) ==> !r.stopped)
  {
    var r := GenerateRun(llama, prompt, maxTokens, temperature, topP, topK, cancelled);
    if !r.failed {
      var n := PromptTokenCount(llama, prompt);
      var tokens := PromptTokens(llama, prompt, n);
      var d := DecodeAll(llama, [], PromptChunks(tokens, OrDefault(llama.nBatch, 512), 0));
      GenerationStops(llama, SamplerDefaults(topK, topP, temperature), cancelled, llama.nCtx, maxTokens,
                      0, |tokens|, d.history, "", []);
    }
  }

  /** The native function uses the return value of the generation loop as
      its reply. */
  lemma GenerationReply(llama: Llama, params: SamplerParams, cancelled: nat -> bool, nCtx: int, maxTokens: int,
                        i: nat, nCur: int, history: seq<seq<Entry>>, reply: string, streamed: seq<string>)
    requires reply == [] && streamed == []
    ensures var r := GenerationLoop(llama, params, cancelled, nCtx, maxTokens, i, nCur, history, reply, streamed);
      r.reply == Flatten(r.streamed)
  {
    GenerationText(llama, params, cancelled, nCtx, maxTokens, i, nCur, history, reply, streamed);
    var r := GenerationLoop(llama, params, cancelled, nCtx, maxTokens, i, nCur, history, reply, streamed);
    assert r.streamed[0..] == r.streamed;
  }

  /** A prompt that tokenizes to nothing, or to n_ctx tokens or more, is
      refused before any batch is allocated or decoded. */
  lemma RejectedPrompts(llama: Llama, prompt: string, maxTokens: int, temperature: real, topP: real, topK: int,
                        cancelled: nat -> bool)
    requires llama.hasVocab && |prompt| > 0 && PromptTokenCount(llama, prompt) >= 0
    requires PromptTokenCount(llama, prompt) == 0 || PromptTokenCount(llama, prompt) >= llama.nCtx
    ensures var r := GenerateRun(llama, prompt, maxTokens, temperature, topP, topK, cancelled);
      r.failed && r.decoded == [] && (r.reply == ErrZeroTokens || r.reply == ErrTooLong)
  {
  }

  lemma FlattenSingletons<T>(bs: seq<seq<T>>)
    requires forall k :: 0 <= k < |bs| ==> |bs[k]| == 1
    ensures |Flatten(bs)| == |bs| && forall k :: 0 <= k < |bs| ==> Flatten(bs)[k] == bs[k][0]
  {
    if bs != [] {
      FlattenSingletons(bs[..|bs| - 1]);
    }
  }

  /** The first k sequences together are a prefix of the concatenation of
      all of them. */
  lemma FlattenPrefix<T>(ss: seq<seq<T>>, k: nat)
    requires k <= |ss|
    ensures var pre := Flatten(ss[..k]);
      |pre| <= |Flatten(ss)| && forall p :: 0 <= p < |pre| ==> pre[p] == Flatten(ss)[p]
  {
    FlattenAppend(ss[..k], ss[k..]);
    assert ss[..k] + ss[k..] == ss;
  }

  /** The batches the prompt loop decodes hold the slots at positions 0, 1,
      ... in order, all n of them when every decode succeeds. */
  lemma PromptPhaseSlots(llama: Llama, tokens: seq<int>, nBatch: nat)
    requires nBatch > 0
    ensures var d := DecodeAll(llama, [], PromptChunks(tokens, nBatch, 0));
      var flat := Flatten(d.history);
      |flat| <= |tokens| && (d.ok ==> |flat| == |tokens|) &&
      (forall p :: 0 <= p < |flat| ==> flat[p].pos == p)
  {
    var chunks := PromptChunks(tokens, nBatch, 0);
    var d := DecodeAll(llama, [], chunks);
    DecodeAllPrefix(llama, [], chunks);
    PromptCoversTokens(tokens, nBatch);
    var k := |d.history|;
    assert d.history == chunks[..k];
    FlattenPrefix(chunks, k);
    if d.ok {
      assert chunks[..k] == chunks;
    }
  }

  /** Each batch the prompt loop decodes holds between 1 and min(n_batch, n)
      tokens. */
  lemma PromptPhaseSizes(llama: Llama, tokens: seq<int>, nBatch: nat, d: Decoded)
    requires nBatch > 0 && d == DecodeAll(llama, [], PromptChunks(tokens, nBatch, 0))
    ensures forall c :: 0 <= c < |d.history| ==> 0 < |d.history[c]| <= nBatch && |d.history[c]| <= |tokens|
  {
    var chunks := PromptChunks(tokens, nBatch, 0);
    DecodeAllPrefix(llama, [], chunks);
    PromptChunkSizes(tokens, nBatch, 0);
    assert d.history == chunks[..|d.history|];
  }

  /** Every token the native function decodes goes to the next free
      position of the context: the decoded slots, in order, are at
      positions 0, 1, 2, ..., and there are fewer than n_ctx of them. Each
      batch holds at least one and at most min(n_batch, n) tokens, within
      the capacity max(n_batch, n) the batch was allocated with. */
  lemma RunPositions(llama: Llama, prompt: string, maxTokens: int, temperature: real, topP: real, topK: int,
                     cancelled: nat -> bool)
    ensures var r := GenerateRun(llama, prompt, maxTokens, temperature, topP, topK, cancelled);
      var flat := Flatten(r.decoded);
      (flat != [] ==> |flat| < llama.nCtx) && (forall p :: 0 <= p < |flat| ==> flat[p].pos == p) &&
      (forall k :: 0 <= k < |r.decoded| ==>
        0 < |r.decoded[k]| <= OrDefault(llama.nBatch, 512) &&
        |r.decoded[k]| <= PromptTokenCount(llama, prompt))
  {
    var n := PromptTokenCount(llama, prompt);
    if llama.hasVocab && |prompt| > 0 && 0 < n < llama.nCtx && llama.batchAllocated {
      var tokens := PromptTokens(llama, prompt, n);
      var nBatch := OrDefault(llama.nBatch, 512);
      var params := SamplerDefaults(topK, topP, temperature);
      assert GenerateRun(llama, prompt, maxTokens, temperature, topP, topK, cancelled) == Answer(llama, tokens, nBatch, params, maxTokens, cancelled);
      AnswerSlots(llama, tokens, nBatch, params, maxTokens, cancelled);
      AnswerSizes(llama, tokens, nBatch, params, maxTokens, cancelled);
    } else {
      assert GenerateRun(llama, prompt, maxTokens, temperature, topP, topK, cancelled).decoded == [];
    }
  }

  /** RunPositions once the prompt is tokenized into fewer than n_ctx
      tokens: the positions of the decoded slots. */
  lemma AnswerSlots(llama: Llama, tokens: seq<int>, nBatch: nat, params: SamplerParams, maxTokens: int,
                    cancelled: nat -> bool)
    requires nBatch > 0 && 0 < |tokens| < llama.nCtx
    ensures var flat := Flatten(Answer(llama, tokens, nBatch, params, maxTokens, cancelled).decoded);
      |flat| < llama.nCtx && forall p :: 0 <= p < |flat| ==> flat[p].pos == p
  {
    var r := Answer(llama, tokens, nBatch, params, maxTokens, cancelled);
    var d := DecodeAll(llama, [], PromptChunks(tokens, nBatch, 0));
    PromptPhaseSlots(llama, tokens, nBatch);
    if d.ok && llama.hasSampler {
      PromptPhaseSizes(llama, tokens, nBatch, d);
      RunGeneration(llama, params, cancelled, maxTokens, |tokens|, nBatch, d.history, r);
    } else {
      assert r.decoded == d.history;
      assert |Flatten(r.decoded)| <= |tokens|;
    }
  }

  /** RunPositions once the prompt is tokenized into fewer than n_ctx
      tokens: the sizes of the decoded batches. */
  lemma AnswerSizes(llama: Llama, tokens: seq<int>, nBatch: nat, params: SamplerParams, maxTokens: int,
                    cancelled: nat -> bool)
    requires nBatch > 0 && 0 < |tokens| < llama.nCtx
    ensures var r := Answer(llama, tokens, nBatch, params, maxTokens, cancelled);
      forall k :: 0 <= k < |r.decoded| ==> 0 < |r.decoded[k]| <= nBatch && |r.decoded[k]| <= |tokens|
  {
    var r := Answer(llama, tokens, nBatch, params, maxTokens, cancelled);
    var d := DecodeAll(llama, [], PromptChunks(tokens, nBatch, 0));
    PromptPhaseSizes(llama, tokens, nBatch, d);
    if d.ok && llama.hasSampler {
      PromptPhaseSlots(llama, tokens, nBatch);
      RunGeneration(llama, params, cancelled, maxTokens, |tokens|, nBatch, d.history, r);
    } else {
      assert r.decoded == d.history;
      forall k | 0 <= k < |r.decoded|
        ensures 0 < |r.decoded[k]| <= nBatch && |r.decoded[k]| <= |tokens|
      {
        assert r.decoded[k] == d.history[k];
      }
    }
  }

  /** The generation phase of RunPositions: after all n prompt slots, the
      single-token batches continue at positions n, n + 1, ... */
  lemma RunGeneration(llama: Llama, params: SamplerParams, cancelled: nat -> bool, maxTokens: int, n: nat,
                      nBatch: nat, chunks: seq<seq<Entry>>, r: Run)
    requires r == GenerationLoop(llama, params, cancelled, llama.nCtx, maxTokens, 0, n, chunks, "", [])
    requires 0 < n < llama.nCtx && nBatch > 0 && |Flatten(chunks)| == n
    requires forall p :: 0 <= p < n ==> Flatten(chunks)[p].pos == p
    requires forall c :: 0 <= c < |chunks| ==> 0 < |chunks[c]| <= nBatch && |chunks[c]| <= n
    ensures var flat := Flatten(r.decoded);
      |flat| < llama.nCtx && forall p :: 0 <= p < |flat| ==> flat[p].pos == p
    ensures forall k :: 0 <= k < |r.decoded| ==> 0 < |r.decoded[k]| <= nBatch && |r.decoded[k]| <= n
  {
    GenerationDecodes(llama, params, cancelled, llama.nCtx, maxTokens, 0, n, chunks, "", []);
    var gen := r.decoded[|chunks|..];
    assert r.decoded == chunks + gen;
    FlattenAppend(chunks, gen);
    FlattenSingletons(gen);
    forall k | 0 <= k < |r.decoded|
      ensures 0 < |r.decoded[k]| <= nBatch && |r.decoded[k]| <= n
    {
      if k < |chunks| {
        assert r.decoded[k] == chunks[k];
      } else {
        assert r.decoded[k] == gen[k - |chunks|];
        assert GenerationBatches(gen, n, llama.nCtx);
      }
    }
  }
}
