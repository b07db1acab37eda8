/**
 * llama_android_stub.cpp: the stand-in for the native library when
 * llama.cpp is not linked. `generateTokens` returns a fixed response and,
 * when a callback is given, streams it word by word; the context handle is
 * a heap record holding the settings it was loaded with.
 */
module LlamaStub {
  import LlamaGenerate

  /** The fixed response of the stub. */
  const Response := "I am a stub response from the LocalLLM app. " +
    "The actual llama.cpp library is not linked. " +
    "This response simulates what a real LLM response would look like. " +
    "To enable real inference, please build llama.cpp for Android and link it to the project."

  // ---------------------------------------------------------------------------
  // The word splitter
  // ---------------------------------------------------------------------------

  /** The pieces the streaming loop emits from character i on, with `word`
      collected so far: each character is appended to the word, and the word
      is emitted at a space or at the last character. `cancelled(i)` is the
      cancellation flag as read before character i. */
  function StreamFrom(s: string, i: nat, word: string, cancelled: nat -> bool): seq<string>
    decreases |s| - i
  {
    if i >= |s| || cancelled(i) then []
    else
      var w := word + [s[i]];
      if s[i] == ' ' || i == |s| - 1 then [w] + StreamFrom(s, i + 1, "", cancelled)
      else StreamFrom(s, i + 1, w, cancelled)
  }

  /** A flag that is never raised. */
  function Never(i: nat): bool
  {
    false
  }

  /** The pieces of s when nothing cancels the stream. */
  function Split(s: string): seq<string>
  {
    StreamFrom(s, 0, "", Never)
  }

  /** A streamed piece: not empty, and a space can only be its last
      character. */
  ghost predicate IsPiece(p: string)
  {
    |p| > 0 && forall j :: 0 <= j < |p| - 1 ==> p[j] != ' '
  }

  /** Pieces in a stream: each is a piece, and each but the last ends with a
      space. */
  ghost predicate WellSplit(ps: seq<string>)
  {
    (forall k :: 0 <= k < |ps| ==> IsPiece(ps[k])) &&
    (forall k :: 0 <= k < |ps| - 1 ==> ps[k][|ps[k]| - 1] == ' ')
  }

  /** Whether the streaming loop sees the cancel flag raised before it
      reaches the end of s. */
  predicate StopsOnCancel(s: string, cancelled: nat -> bool)
  {
    exists i :: 0 <= i < |s| && cancelled(i)
  }

  /** The streaming loop of `generateTokens`; `stopped` tells whether it
      ended on the cancel flag rather than at the end of the response. */
  method StreamWords(response: string, cancelled: nat -> bool) returns (streamed: seq<string>, stopped: bool)
    ensures streamed == StreamFrom(response, 0, "", cancelled)
    ensures stopped <==> StopsOnCancel(response, cancelled)
  {
    var word := "";
    var i := 0;
    streamed := [];
    while i < |response| && !cancelled(i)
      invariant i <= |response|
      invariant forall j :: 0 <= j < i ==> !cancelled(j)
      invariant streamed + StreamFrom(response, i, word, cancelled) == StreamFrom(response, 0, "", cancelled)
      decreases |response| - i
    {
      ghost var rest := StreamFrom(response, i, word, cancelled);
      word := word + [response[i]];
      if response[i] == ' ' || i == |response| - 1 {
        assert rest == [word] + StreamFrom(response, i + 1, "", cancelled);
        streamed := streamed + [word];
        word := "";
      }
      i := i + 1;
    }
    stopped := i < |response|;
  }

  /** Without cancellation the pieces put back together give the text:
      from character i on, with `word` pending, they give `word` followed by
      the rest of the text. */
  lemma {:induction false} StreamConcat(s: string, i: nat, word: string)
    requires i <= |s| && (i < |s| || word == [])
    ensures LlamaGenerate.Flatten(StreamFrom(s, i, word, Never)) == word + s[i..]
    decreases |s| - i
  {
    if i < |s| {
      var w := word + [s[i]];
      assert s[i..] == [s[i]] + s[i + 1..];
      if s[i] == ' ' || i == |s| - 1 {
        StreamConcat(s, i + 1, "");
        LlamaGenerate.FlattenCons(w, StreamFrom(s, i + 1, "", Never));
      } else {
        StreamConcat(s, i + 1, w);
      }
    } else {
      assert LlamaGenerate.Flatten<char>([]) == [];
    }
  }

  /** The pieces of a text concatenate to exactly that text. */
  lemma SplitConcat(s: string)
    ensures LlamaGenerate.Flatten(Split(s)) == s
  {
    StreamConcat(s, 0, "");
  }

  /** Whether cancelled or not, every streamed piece is non-empty, holds a
      space only as its last character, and every piece but the last ends
      with a space. */
  lemma {:induction false} StreamShape(s: string, i: nat, word: string, cancelled: nat -> bool)
    requires forall j :: 0 <= j < |word| ==> word[j] != ' '
    ensures WellSplit(StreamFrom(s, i, word, cancelled))
    decreases |s| - i
  {
    if i < |s| && !cancelled(i) {
      var w := word + [s[i]];
      if s[i] == ' ' || i == |s| - 1 {
        var rest := StreamFrom(s, i + 1, "", cancelled);
        StreamShape(s, i + 1, "", cancelled);
        var ps := [w] + rest;
        assert IsPiece(w);
        forall k | 0 <= k < |ps| - 1
          ensures ps[k][|ps[k]| - 1] == ' '
        {
          if k > 0 {
            assert ps[k] == rest[k - 1];
          }
        }
        assert forall k :: 1 <= k < |ps| ==> ps[k] == rest[k - 1];
      } else {
        StreamShape(s, i + 1, w, cancelled);
      }
    }
  }

  /** A cancelled stream emits a prefix of the pieces of the uncancelled
      one: whole words only, in order, since the word being collected when
      the flag is seen is dropped. */
  lemma {:induction false} CancelledPrefix(s: string, i: nat, word: string, cancelled: nat -> bool)
    ensures var a := StreamFrom(s, i, word, cancelled);
      var b := StreamFrom(s, i, word, Never);
      |a| <= |b| && a == b[..|a|]
    decreases |s| - i
  {
    if i < |s| && !cancelled(i) {
      var w := word + [s[i]];
      if s[i] == ' ' || i == |s| - 1 {
        CancelledPrefix(s, i + 1, "", cancelled);
        var a := StreamFrom(s, i + 1, "", cancelled);
        var b := StreamFrom(s, i + 1, "", Never);
        assert ([w] + b)[..|a| + 1] == [w] + b[..|a|];
      } else {
        CancelledPrefix(s, i + 1, w, cancelled);
      }
    }
  }

  /** A flag that stays down until the end streams every piece. */
  lemma {:induction false} UncancelledStream(s: string, i: nat, word: string, cancelled: nat -> bool)
    requires forall j :: i <= j < |s| ==> !cancelled(j)
    ensures StreamFrom(s, i, word, cancelled) == StreamFrom(s, i, word, Never)
    decreases |s| - i
  {
    if i < |s| {
      var w := word + [s[i]];
      if s[i] == ' ' || i == |s| - 1 {
        UncancelledStream(s, i + 1, "", cancelled);
      } else {
        UncancelledStream(s, i + 1, w, cancelled);
      }
    }
  }

  // ---------------------------------------------------------------------------
  // The stub's state
  // ---------------------------------------------------------------------------

  /** The process-wide flags `g_is_generating` and `g_should_cancel`. */
  class StubRuntime {
    var generating: bool
    var shouldCancel: bool

    constructor ()
      ensures !generating && !shouldCancel
    {
      generating := false;
      shouldCancel := false;
    }

    /** `generateTokens`: the busy flag is raised and the cancel flag
        cleared; the response is streamed only when a callback with an
        `onToken` method is given; the full response is returned, cancelled
        or not, with the busy flag down. Nothing clears the cancel flag
        after entry, so a cancel that stopped the stream is still raised on
        return. The prompt and the sampling settings are ignored. */
    method GenerateTokens(hasCallback: bool, cancelled: nat -> bool) returns (reply: string, streamed: seq<string>)
      modifies this
      ensures reply == Response && !generating
      ensures streamed == if hasCallback then StreamFrom(Response, 0, "", cancelled) else []
      ensures shouldCancel <==> hasCallback && StopsOnCancel(Response, cancelled)
    {
      generating := true;
      shouldCancel := false;
      if hasCallback {
        var stopped;
        streamed, stopped := StreamWords(Response, cancelled);
        // the flag the loop stopped on stays raised
        shouldCancel := stopped;
      } else {
        streamed := [];
      }
      generating := false;
      reply := Response;
    }

    /** `cancelGeneration`. */
    method Cancel()
      modifies this
      ensures shouldCancel && generating == old(generating)
    {
      shouldCancel := true;
    }
  }

  /** The heap record behind a context handle, with the defaults of its
      declaration. */
  class StubContext {
    var nCtx: int
    var nThreads: int

    constructor ()
      ensures nCtx == 2048 && nThreads == 4
    {
      nCtx := 2048;
      nThreads := 4;
    }
  }

  /** `loadModel`: a new record holding the given context size and thread
      count. */
  method LoadModel(threads: int, contextSize: int) returns (ctx: StubContext)
    ensures fresh(ctx) && ctx.nCtx == contextSize && ctx.nThreads == threads
  {
    ctx := new StubContext();
    ctx.nCtx := contextSize;
    ctx.nThreads := threads;
  }

  /** `getContextSize`: 2048 for a null handle, otherwise the stored size. */
  method GetContextSize(ctx: StubContext?) returns (n: int)
    ensures ctx == null ==> n == 2048
    ensures ctx != null ==> n == ctx.nCtx
  {
    if ctx == null {
      return 2048;
    }
    return ctx.nCtx;
  }

  /** A handle made by `loadModel` reports the context size it was loaded
      with. */
  method LoadThenQuery(threads: int, contextSize: int) returns (n: int)
    ensures n == contextSize
  {
    var ctx := LoadModel(threads, contextSize);
    n := GetContextSize(ctx);
  }
}
