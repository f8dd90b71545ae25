/**
 * `PromptProcessor` (promptify/processor/prompt_processor.py): token counting,
 * `batch_prompt` and `trim_prompt` over an opaque tokenizer (`encode`,
 * `decode`), with Python's slice semantics written out. `encode` may raise
 * (tiktoken refuses text holding a special token such as "<|endoftext|>"),
 * and its exception leaves every method that encodes.
 */
module PromptProcessing {
  import opened PyValues
  import opened Text

  /** Where a Python slice bound `i` lands in a sequence of length `n`. */
  function SliceBound(i: int, n: nat): (r: nat)
    ensures r <= n
    ensures 0 <= i <= n ==> r == i
    ensures i > n ==> r == n
    ensures i < 0 ==> r == if n + i < 0 then 0 else n + i
  {
    if i < 0 then (if n + i < 0 then 0 else n + i) else if i > n then n else i
  }

  /** `s[start:stop]`. */
  function Slice<T>(s: seq<T>, start: int, stop: int): (r: seq<T>)
    ensures SliceBound(start, |s|) <= SliceBound(stop, |s|) ==> r == s[SliceBound(start, |s|)..SliceBound(stop, |s|)]
    ensures SliceBound(start, |s|) > SliceBound(stop, |s|) ==> r == []
  {
    var a, b := SliceBound(start, |s|), SliceBound(stop, |s|);
    if a <= b then s[a..b] else []
  }

  /**
   * Lines 59-64 of `trim_prompt`: when there are more tokens than `limit`,
   * "pre" keeps `tokens[-limit:]` and "post" keeps `tokens[:limit]`.
   */
  function TrimTokens(tokens: seq<int>, limit: int, pre: bool): (r: seq<int>)
    ensures |tokens| <= limit ==> r == tokens
    ensures |tokens| > limit && limit > 0 && pre ==> r == tokens[|tokens| - limit..]
    ensures |tokens| > limit && limit >= 0 && !pre ==> r == tokens[..limit]
    ensures limit == 0 && pre ==> r == tokens
    ensures limit < 0 && pre ==> r == tokens[if -limit <= |tokens| then -limit else |tokens|..]
    ensures limit < 0 && !pre ==> r == tokens[..if |tokens| + limit < 0 then 0 else |tokens| + limit]
  {
    if |tokens| > limit then
      if pre then Slice(tokens, -limit, |tokens|) else Slice(tokens, 0, limit)
    else tokens
  }

  /** With a limit of 0, "pre" keeps every token while "post" keeps none. */
  lemma TrimZeroPreKeepsAll()
    ensures TrimTokens([7], 0, true) == [7]
    ensures TrimTokens([7], 0, false) == []
  {
  }

  /** What trimming to `limit` tokens evidently means: at most `limit` tokens, the last ones or the first ones. */
  function TrimTokensIntended(tokens: seq<int>, limit: int, pre: bool): (r: seq<int>)
    ensures |r| == if |tokens| <= limit then |tokens| else if limit < 0 then 0 else limit
    ensures pre ==> r == tokens[|tokens| - |r|..]
    ensures !pre ==> r == tokens[..|r|]
  {
    if |tokens| <= limit then tokens
    else
      var keep := if limit < 0 then 0 else limit;
      if pre then tokens[|tokens| - keep..] else tokens[..keep]
  }

  /** For a positive limit the code as written and the intended trimming agree. */
  lemma TrimAgreesForPositiveLimit(tokens: seq<int>, limit: int, pre: bool)
    requires limit > 0
    ensures TrimTokens(tokens, limit, pre) == TrimTokensIntended(tokens, limit, pre)
  {
  }

  const InvalidModeMessage := "Invalid mode. Must be one of: \"pre\", \"post\""
  const EmptyInputMessage := "Input text is empty."

  /** `[tokens[i:i + width] for i in range(0, len(tokens), width)]`, the batches for `batch_size = width + 1`. */
  function Chunks(tokens: seq<int>, width: nat): seq<seq<int>>
    requires width >= 1
    decreases |tokens|
  {
    if tokens == [] then []
    else if |tokens| <= width then [tokens]
    else [tokens[..width]] + Chunks(tokens[width..], width)
  }

  /** The concatenation of a sequence of token runs. */
  function Concat(chunks: seq<seq<int>>): seq<int>
  {
    if chunks == [] then [] else chunks[0] + Concat(chunks[1..])
  }

  /** The batches cover every token once, in order. */
  lemma {:induction false} ChunksCover(tokens: seq<int>, width: nat)
    requires width >= 1
    ensures Concat(Chunks(tokens, width)) == tokens
    decreases |tokens|
  {
    if |tokens| > width {
      var head, rest := tokens[..width], tokens[width..];
      ChunksCover(rest, width);
      ConcatCons(head, Chunks(rest, width));
      assert tokens == head + rest;
    } else if tokens != [] {
      ConcatCons(tokens, []);
    }
  }

  lemma ConcatCons(c: seq<int>, cs: seq<seq<int>>)
    ensures Concat([c] + cs) == c + Concat(cs)
  {
    assert ([c] + cs)[1..] == cs;
  }

  lemma MulStep(k: nat, width: nat)
    requires k > 0
    ensures k * width == (k - 1) * width + width
  {
  }

  /** There are `ceil(|tokens| / width)` batches: just enough to hold every token. */
  lemma {:induction false} ChunksCount(tokens: seq<int>, width: nat)
    requires width >= 1
    ensures tokens == [] <==> Chunks(tokens, width) == []
    ensures tokens != [] ==> (|Chunks(tokens, width)| - 1) * width < |tokens| <= |Chunks(tokens, width)| * width
    decreases |tokens|
  {
    if |tokens| > width {
      var rest := tokens[width..];
      ChunksCount(rest, width);
      var c := |Chunks(rest, width)|;
      assert |Chunks(tokens, width)| == c + 1;
      MulStep(c + 1, width);
      MulStep(c, width);
    }
  }

  /** Every batch holds `width` tokens except the last, which holds between 1 and `width`. */
  lemma {:induction false} ChunksSizes(tokens: seq<int>, width: nat)
    requires width >= 1
    ensures forall k :: 0 <= k < |Chunks(tokens, width)| - 1 ==> |Chunks(tokens, width)[k]| == width
    ensures Chunks(tokens, width) != [] ==> 1 <= |Chunks(tokens, width)[|Chunks(tokens, width)| - 1]| <= width
    decreases |tokens|
  {
    if |tokens| > width {
      var rest := Chunks(tokens[width..], width);
      ChunksSizes(tokens[width..], width);
      assert Chunks(tokens, width) == [tokens[..width]] + rest;
      assert tokens[width..] != [];
    }
  }

  /** The smaller of two ints. */
  function Min(a: int, b: int): int
  {
    if a <= b then a else b
  }

  /** Batch `k` is `tokens[k * width:(k + 1) * width]`. */
  lemma {:induction false} ChunkAt(tokens: seq<int>, width: nat, k: nat)
    requires width >= 1 && k < |Chunks(tokens, width)|
    ensures k * width < |tokens|
    ensures Chunks(tokens, width)[k] == tokens[k * width..Min(k * width + width, |tokens|)]
    decreases |tokens|
  {
    if k == 0 {
      assert tokens != [];
      if |tokens| <= width {
        assert Chunks(tokens, width) == [tokens];
      } else {
        assert Chunks(tokens, width)[0] == tokens[..width];
      }
    } else {
      assert |tokens| > width;
      var rest := tokens[width..];
      assert Chunks(tokens, width)[k] == Chunks(rest, width)[k - 1];
      ChunkAt(rest, width, k - 1);
      var i := (k - 1) * width;
      MulStep(k, width);
      var j := Min(i + width, |rest|);
      assert j + width == Min(i + width + width, |tokens|);
      assert rest[i..j] == tokens[i + width..j + width];
    }
  }

  /** `decode(batch).strip()` for each batch. */
  function StrippedTexts(decode: seq<int> -> string, chunks: seq<seq<int>>): seq<string>
  {
    if chunks == [] then [] else [Strip(decode(chunks[0]))] + StrippedTexts(decode, chunks[1..])
  }

  /** One text per batch, in order: text `k` is batch `k` decoded and stripped. */
  lemma {:induction false} StrippedTextsAt(decode: seq<int> -> string, chunks: seq<seq<int>>)
    ensures |StrippedTexts(decode, chunks)| == |chunks|
    ensures forall k :: 0 <= k < |chunks| ==> StrippedTexts(decode, chunks)[k] == Strip(decode(chunks[k]))
  {
    if chunks != [] {
      StrippedTextsAt(decode, chunks[1..]);
    }
  }

  lemma StrippedTextsCons(decode: seq<int> -> string, c: seq<int>, cs: seq<seq<int>>)
    ensures StrippedTexts(decode, [c] + cs) == [Strip(decode(c))] + StrippedTexts(decode, cs)
  {
  }

  /** The batches from token `start` on: the run up to `start + width`, then the batches after it. */
  lemma ChunksFrom(tokens: seq<int>, start: nat, width: nat)
    requires width >= 1 && start < |tokens|
    ensures Chunks(tokens[start..], width)
         == [tokens[start..Min(start + width, |tokens|)]] + Chunks(tokens[Min(start + width, |tokens|)..], width)
  {
    var rest := tokens[start..];
    if |rest| <= width {
      assert rest == tokens[start..Min(start + width, |tokens|)];
      assert tokens[Min(start + width, |tokens|)..] == [];
    } else {
      assert rest[..width] == tokens[start..Min(start + width, |tokens|)];
      assert rest[width..] == tokens[Min(start + width, |tokens|)..];
    }
  }

  /** The state of `batch_prompt`'s loop: `start_idx` and `batches`. */
  datatype BatchLoop = BatchLoop(startIdx: int, batches: seq<string>)

  /** `decode(tokens[start:stop]).strip()`. */
  function BatchText(decode: seq<int> -> string, tokens: seq<int>, start: int, stop: int): string
  {
    Strip(decode(Slice(tokens, start, stop)))
  }

  /** The texts of the batches from token `start` on. */
  function TextsFrom(decode: seq<int> -> string, tokens: seq<int>, start: nat, width: nat): seq<string>
    requires width >= 1
  {
    StrippedTexts(decode, Chunks(tokens[Min(start, |tokens|)..], width))
  }

  /** One pass of the batching loop: the text of `tokens[start:start + width]`, then the texts of the batches after it. */
  lemma BatchStep(decode: seq<int> -> string, tokens: seq<int>, start: nat, width: nat)
    requires width >= 1 && start < |tokens|
    ensures TextsFrom(decode, tokens, start, width)
         == [BatchText(decode, tokens, start, start + width)] + TextsFrom(decode, tokens, start + width, width)
  {
    var batch := Slice(tokens, start, start + width);
    assert batch == tokens[start..Min(start + width, |tokens|)];
    ChunksFrom(tokens, start, width);
    StrippedTextsCons(decode, batch, Chunks(tokens[Min(start + width, |tokens|)..], width));
  }

  /** From token 0 on, the texts are those of all batches; past the end there are none. */
  lemma TextsFromEnds(decode: seq<int> -> string, tokens: seq<int>, start: nat, width: nat)
    requires width >= 1
    ensures TextsFrom(decode, tokens, 0, width) == StrippedTexts(decode, Chunks(tokens, width))
    ensures start >= |tokens| ==> TextsFrom(decode, tokens, start, width) == []
  {
    assert tokens[Min(0, |tokens|)..] == tokens;
    if start >= |tokens| {
      assert tokens[Min(start, |tokens|)..] == [];
    }
  }

  lemma AppendOne(a: seq<string>, x: string, r: seq<string>)
    ensures (a + [x]) + r == a + ([x] + r)
  {
  }

  /**
   * The loop's state after `k` iterations of its body, whether or not its
   * condition still held; `batch(start, end)` is the text appended for
   * `tokens[start:end]`, `BatchText` in `batch_prompt`.
   */
  function LoopState(batch: (int, int) -> string, batchSize: int, k: nat): BatchLoop
  {
    if k == 0 then BatchLoop(0, [])
    else
      var before := LoopState(batch, batchSize, k - 1);
      var endIdx := before.startIdx + batchSize - 1;
      BatchLoop(endIdx, before.batches + [batch(before.startIdx, endIdx)])
  }

  /** Each iteration appends one batch. */
  lemma {:induction false} LoopStateBatches(batch: (int, int) -> string, batchSize: int, k: nat)
    ensures |LoopState(batch, batchSize, k).batches| == k
  {
    if k > 0 {
      LoopStateBatches(batch, batchSize, k - 1);
    }
  }

  /** With `batch_size <= 1`, `start_idx` never grows. */
  lemma {:induction false} LoopStateStart(batch: (int, int) -> string, batchSize: int, k: nat)
    requires batchSize <= 1
    ensures LoopState(batch, batchSize, k).startIdx <= 0
  {
    if k > 0 {
      LoopStateStart(batch, batchSize, k - 1);
    }
  }

  /**
   * With `batch_size <= 1` and at least one token, the loop condition
   * `start_idx < len(tokens)` holds after every number of iterations and
   * `batches` keeps growing, so `batch_prompt` never returns.
   */
  lemma BatchLoopNeverExits(decode: seq<int> -> string, tokens: seq<int>, batchSize: int, k: nat)
    requires batchSize <= 1 && tokens != []
    ensures var state := LoopState((start, end) => BatchText(decode, tokens, start, end), batchSize, k);
      state.startIdx < |tokens| && |state.batches| == k
  {
    LoopStateStart((start, end) => BatchText(decode, tokens, start, end), batchSize, k);
    LoopStateBatches((start, end) => BatchText(decode, tokens, start, end), batchSize, k);
  }

  /** With `batch_size = 2`, two tokens come out as two batches of one token each. */
  lemma BatchSizeTwoSplitsPairs()
    ensures Chunks([1, 2], 2 - 1) == [[1], [2]]
  {
    var two: seq<int> := [1, 2];
    assert two[..1] == [1] && two[1..] == [2];
    assert Chunks([2], 1) == [[2]];
    assert Chunks(two, 1) == [[1]] + Chunks([2], 1);
  }

  /**
   * The batches `batch_prompt` evidently means for `batch_size >= 1`: they
   * cover every token once, in order, each but the last holding exactly
   * `batch_size` tokens and the last between 1 and `batch_size`.
   */
  lemma IntendedBatches(tokens: seq<int>, batchSize: int)
    requires batchSize >= 1
    ensures Concat(Chunks(tokens, batchSize)) == tokens
    ensures forall k :: 0 <= k < |Chunks(tokens, batchSize)| - 1 ==> |Chunks(tokens, batchSize)[k]| == batchSize
    ensures Chunks(tokens, batchSize) != [] ==>
      1 <= |Chunks(tokens, batchSize)[|Chunks(tokens, batchSize)| - 1]| <= batchSize
    ensures tokens != [] ==> (|Chunks(tokens, batchSize)| - 1) * batchSize < |tokens| <= |Chunks(tokens, batchSize)| * batchSize
  {
    ChunksCover(tokens, batchSize);
    ChunksSizes(tokens, batchSize);
    ChunksCount(tokens, batchSize);
  }

  class PromptProcessor {
    const model: string
    /** `encoder.encode` (the tokens, or the ValueError it raises) and `encoder.decode` of the model's tiktoken encoding. */
    const encode: string -> Result<seq<int>>
    const decode: seq<int> -> string
    var tokenLimit: int

    /** `PromptProcessor(model, token_limit)`, without the OpenAI client set-up. */
    constructor (model: string, tokenLimit: int, encode: string -> Result<seq<int>>, decode: seq<int> -> string)
      ensures this.model == model && this.tokenLimit == tokenLimit && this.encode == encode && this.decode == decode
    {
      this.model := model;
      this.tokenLimit := tokenLimit;
      this.encode := encode;
      this.decode := decode;
    }

    /** `get_token_count(text)`: the length of the encoding. */
    method GetTokenCount(text: string) returns (r: Result<int>)
      ensures encode(text).Failure? ==> r == Failure(encode(text).error)
      ensures encode(text).Success? ==> r == Success(|encode(text).value|)
    {
      var tokens := encode(text);
      if tokens.Failure? {
        return Failure(tokens.error);
      }
      return Success(|tokens.value|);
    }

    /** `adjust_token_limit(token_limit)`: the limit changes, nothing else does. */
    method AdjustTokenLimit(newLimit: int)
      modifies this`tokenLimit
      ensures tokenLimit == newLimit
    {
      tokenLimit := newLimit;
    }

    /**
     * `batch_prompt(prompt, batch_size)`. The loop only ends when `start_idx`
     * grows, so there must be no tokens unless `batch_size >= 2` (see
     * BatchLoopNeverExits).
     */
    method BatchPrompt(prompt: string, batchSize: int) returns (r: Result<seq<string>>)
      requires batchSize >= 2 || encode(prompt).Failure? || encode(prompt).value == []
      ensures encode(prompt).Failure? ==> r == Failure(encode(prompt).error)
      ensures encode(prompt) == Success([]) ==> r == Success([])
      ensures batchSize >= 2 && encode(prompt).Success? ==>
        r == Success(StrippedTexts(decode, Chunks(encode(prompt).value, batchSize - 1)))
    {
      var encoded := encode(prompt);
      if encoded.Failure? {
        return Failure(encoded.error);
      }
      var tokens := encoded.value;
      var batches := [];
      if tokens == [] {
        return Success(batches);
      }
      var width: nat := batchSize - 1;
      var startIdx := 0;
      while startIdx < |tokens|
        invariant 0 <= startIdx
        invariant batches + TextsFrom(decode, tokens, startIdx, width) == TextsFrom(decode, tokens, 0, width)
        decreases |tokens| - startIdx
      {
        var endIdx := startIdx + batchSize - 1;
        var text := BatchText(decode, tokens, startIdx, endIdx);
        assert (batches + [text]) + TextsFrom(decode, tokens, endIdx, width) == TextsFrom(decode, tokens, 0, width) by {
          BatchStep(decode, tokens, startIdx, width);
          AppendOne(batches, text, TextsFrom(decode, tokens, endIdx, width));
        }
        batches := batches + [text];
        startIdx := endIdx;
      }
      TextsFromEnds(decode, tokens, startIdx, width);
      assert batches == StrippedTexts(decode, Chunks(tokens, width));
      assert tokens == encode(prompt).value;
      r := Success(batches);
    }

    /**
     * `batch_prompt` with `end_idx = start_idx + batch_size`: batches of
     * `batch_size` tokens, and the loop ends for every `batch_size >= 1`.
     */
    method BatchPromptIntended(prompt: string, batchSize: int) returns (r: Result<seq<string>>)
      requires batchSize >= 1
      ensures encode(prompt).Failure? ==> r == Failure(encode(prompt).error)
      ensures encode(prompt).Success? ==> r == Success(StrippedTexts(decode, Chunks(encode(prompt).value, batchSize)))
    {
      var encoded := encode(prompt);
      if encoded.Failure? {
        return Failure(encoded.error);
      }
      var tokens := encoded.value;
      var batches := [];
      var width: nat := batchSize;
      var startIdx := 0;
      while startIdx < |tokens|
        invariant 0 <= startIdx
        invariant batches + TextsFrom(decode, tokens, startIdx, width) == TextsFrom(decode, tokens, 0, width)
        decreases |tokens| - startIdx
      {
        var endIdx := startIdx + width;
        var text := BatchText(decode, tokens, startIdx, endIdx);
        assert (batches + [text]) + TextsFrom(decode, tokens, endIdx, width) == TextsFrom(decode, tokens, 0, width) by {
          BatchStep(decode, tokens, startIdx, width);
          AppendOne(batches, text, TextsFrom(decode, tokens, endIdx, width));
        }
        batches := batches + [text];
        startIdx := endIdx;
      }
      TextsFromEnds(decode, tokens, startIdx, width);
      assert batches == StrippedTexts(decode, Chunks(tokens, width));
      assert tokens == encode(prompt).value;
      r := Success(batches);
    }

    /**
     * `trim_prompt(prompt, mode)`: the mode is checked before the prompt is
     * looked at; an empty prompt is refused.
     */
    method TrimPrompt(prompt: string, mode: string) returns (r: Result<string>)
      ensures mode != "pre" && mode != "post" ==> r == Failure(ValueError(InvalidModeMessage))
      ensures (mode == "pre" || mode == "post") && prompt == "" ==> r == Failure(ValueError(EmptyInputMessage))
      ensures (mode == "pre" || mode == "post") && prompt != "" && encode(prompt).Failure? ==>
        r == Failure(encode(prompt).error)
      ensures (mode == "pre" || mode == "post") && prompt != "" && encode(prompt).Success? ==>
        r == Success(decode(TrimTokens(encode(prompt).value, tokenLimit, mode == "pre")))
    {
      if mode != "pre" && mode != "post" {
        return Failure(ValueError(InvalidModeMessage));
      }
      if prompt == "" {
        return Failure(ValueError(EmptyInputMessage));
      }
      var encoded := encode(prompt);
      if encoded.Failure? {
        return Failure(encoded.error);
      }
      var tokens := encoded.value;
      if |tokens| > tokenLimit {
        if mode == "pre" {
          tokens := Slice(tokens, -tokenLimit, |tokens|);
        } else {
          tokens := Slice(tokens, 0, tokenLimit);
        }
      }
      return Success(decode(tokens));
    }
  }
}
