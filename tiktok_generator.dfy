/**
 * TikTok-style copy generation: the system and user prompts are sent to the
 * streaming client, every forwarded fragment is accumulated and passed on to
 * `onChunk`, and the accumulated answer is parsed into one copy handed to
 * `onComplete`; anything thrown goes to `onError` instead.
 */
module TiktokGenerator {
  import opened Base
  import opened Types
  import opened DeepseekClient
  import opened DeepseekPrompts

  /** One call of the caller's callbacks; an error is represented by its message. */
  datatype Callback = OnChunk(chunk: string) | OnComplete(copy: TikTokCopy) | OnError(message: string)
  {
    predicate Terminal()
    {
      !OnChunk?
    }
  }

  /** The `onChunk` calls for the forwarded fragments, in order. */
  function ChunkCalls(chunks: seq<string>): (r: seq<Callback>)
    ensures |r| == |chunks|
    ensures forall i :: 0 <= i < |r| ==> r[i] == OnChunk(chunks[i])
  {
    seq(|chunks|, i requires 0 <= i < |chunks| => OnChunk(chunks[i]))
  }

  lemma ChunkCallsAppend(chunks: seq<string>, chunk: string)
    ensures ChunkCalls(chunks + [chunk]) == ChunkCalls(chunks) + [OnChunk(chunk)]
  {
  }

  /** The copy built from a parsed answer; `Date.now()` and `new Date()` both read `now`. */
  function CopyOf(product: Product, styleId: string, parsed: TiktokParse, now: int): (c: TikTokCopy)
    ensures c.productId == product.id && c.styleId == styleId && c.status == CopyCompleted
    ensures c.hook == parsed.hook && c.content == parsed.content && c.cta == parsed.cta && c.hashtags == parsed.hashtags
    ensures c.id == product.id + "-" + IntToString(now) && c.generatedAt == now
  {
    TikTokCopy(product.id + "-" + IntToString(now), product.id, styleId, parsed.hook, parsed.content,
               parsed.cta, parsed.hashtags, CopyCompleted, None, None, now)
  }

  /** The one terminal callback: the parsed copy when the stream ends, the error when it throws. */
  function TerminalCall(product: Product, options: TikTokCopyOptions, stream: Stream,
                        parse: string -> Option<TiktokParse>, now: int): (c: Callback)
    ensures c.Terminal()
  {
    match stream.end
    case StreamDone =>
      OnComplete(CopyOf(product, options.styleId,
                        ParseTiktokResponse(Concat(NonEmptyDeltas(stream.chunks)), parse), now))
    case StreamThrows(thrown) => OnError(MessageOr(thrown, "生成失败"))
  }

  /** The callbacks `generateTiktokCopyStream` makes, in order. */
  function Callbacks(product: Product, options: TikTokCopyOptions, stream: Stream,
                     parse: string -> Option<TiktokParse>, now: int): seq<Callback>
  {
    ChunkCalls(NonEmptyDeltas(stream.chunks)) + [TerminalCall(product, options, stream, parse, now)]
  }

  /** The chunk callback applied to each forwarded fragment: append it, then pass it on. */
  method Accumulate(forwarded: seq<string>) returns (fullContent: string, calls: seq<Callback>)
    ensures fullContent == Concat(forwarded)
    ensures calls == ChunkCalls(forwarded)
  {
    fullContent := "";
    calls := [];
    var i := 0;
    while i < |forwarded|
      invariant 0 <= i <= |forwarded|
      invariant fullContent == Concat(forwarded[..i])
      invariant calls == ChunkCalls(forwarded[..i])
    {
      fullContent := fullContent + forwarded[i];
      calls := calls + [OnChunk(forwarded[i])];
      assert forwarded[..i + 1] == forwarded[..i] + [forwarded[i]];
      ChunkCallsAppend(forwarded[..i], forwarded[i]);
      i := i + 1;
    }
    assert forwarded[..i] == forwarded;
  }

  /**
   * `generateTiktokCopyStream(product, options, callbacks)`: the messages sent to the
   * model and the callbacks made. The service's answer is `stream`, `JSON.parse` is `parse`.
   */
  method GenerateTiktokCopyStream(product: Product, options: TikTokCopyOptions, stream: Stream,
                                  parse: string -> Option<TiktokParse>, now: int)
    returns (messages: seq<ChatMessage>, calls: seq<Callback>)
    ensures messages == [System(TIKTOK_SYSTEM_PROMPT),
                         User(TiktokPrompt(product, options.styleId, options.targetLength, options.includeHashtags))]
    ensures calls == Callbacks(product, options, stream, parse, now)
  {
    var userPrompt := BuildTiktokPrompt(product, options.styleId, options.targetLength, options.includeHashtags);
    messages := [System(BuildTiktokSystemPrompt()), User(userPrompt)];
    var outcome, forwarded := GenerateStream(messages, stream);
    var fullContent;
    fullContent, calls := Accumulate(forwarded);
    match outcome
    case Err(thrown) =>
      calls := calls + [OnError(MessageOr(thrown, "生成失败"))];
    case Ok(_) =>
      var parsed := ParseTiktokResponse(fullContent, parse);
      var copy := TikTokCopy(product.id + "-" + IntToString(now), product.id, options.styleId, parsed.hook,
                             parsed.content, parsed.cta, parsed.hashtags, CopyCompleted, None, None, now);
      calls := calls + [OnComplete(copy)];
  }

  /**
   * The callback protocol: one `onChunk` per fragment with text, in stream order and
   * unchanged, then exactly one terminal call, which is `onComplete` exactly when nothing threw.
   */
  lemma CallbackProtocol(product: Product, options: TikTokCopyOptions, stream: Stream,
                         parse: string -> Option<TiktokParse>, now: int)
    ensures var calls := Callbacks(product, options, stream, parse, now);
            var chunks := NonEmptyDeltas(stream.chunks);
            |calls| == |chunks| + 1
            && (forall i :: 0 <= i < |chunks| ==> calls[i] == OnChunk(chunks[i]))
            && (forall i :: 0 <= i < |calls| - 1 ==> !calls[i].Terminal())
            && calls[|calls| - 1].Terminal()
            && (calls[|calls| - 1].OnComplete? <==> stream.end.StreamDone?)
            && (calls[|calls| - 1].OnError? <==> stream.end.StreamThrows?)
  {
  }

  /**
   * The completed copy is parsed from the concatenation of the `onChunk` arguments, and
   * carries the product id, the style id and the status 'completed'.
   */
  lemma CompletedCopy(product: Product, options: TikTokCopyOptions, stream: Stream,
                      parse: string -> Option<TiktokParse>, now: int)
    ensures var calls := Callbacks(product, options, stream, parse, now);
            var last := calls[|calls| - 1];
            last.OnComplete? ==>
              last.copy.status == CopyCompleted && last.copy.productId == product.id
              && last.copy.styleId == options.styleId
              && var parsed := ParseTiktokResponse(Concat(ChunkArgs(calls[..|calls| - 1])), parse);
              last.copy.hook == parsed.hook && last.copy.content == parsed.content
              && last.copy.cta == parsed.cta && last.copy.hashtags == parsed.hashtags
  {
    var calls := Callbacks(product, options, stream, parse, now);
    var chunks := NonEmptyDeltas(stream.chunks);
    assert calls[..|calls| - 1] == ChunkCalls(chunks);
    ChunkArgsOfCalls(chunks);
  }

  /** The arguments of the `onChunk` calls in a sequence of callbacks. */
  function ChunkArgs(calls: seq<Callback>): (r: seq<string>)
    ensures |r| <= |calls|
  {
    if |calls| == 0 then []
    else (if calls[0].OnChunk? then [calls[0].chunk] else []) + ChunkArgs(calls[1..])
  }

  lemma {:induction false} ChunkArgsOfCalls(chunks: seq<string>)
    ensures ChunkArgs(ChunkCalls(chunks)) == chunks
  {
    if |chunks| > 0 {
      assert ChunkCalls(chunks)[1..] == ChunkCalls(chunks[1..]);
      ChunkArgsOfCalls(chunks[1..]);
      assert chunks == [chunks[0]] + chunks[1..];
    }
  }

  /** A `Thrown` that is not an `Error` reaches `onError` as the message '生成失败'. */
  lemma NonErrorBecomesGenericFailure(product: Product, options: TikTokCopyOptions, chunks: seq<Chunk>,
                                      parse: string -> Option<TiktokParse>, now: int)
    ensures var calls := Callbacks(product, options, Stream(chunks, StreamThrows(NonError)), parse, now);
            calls[|calls| - 1] == OnError("生成失败")
  {
  }

  /** How the promise settles: by the first terminal callback, or not at all. */
  function Settle(calls: seq<Callback>): (r: Option<Result<TikTokCopy, string>>)
    ensures r.None? <==> forall i :: 0 <= i < |calls| ==> !calls[i].Terminal()
  {
    if |calls| == 0 then None
    else match calls[0]
      case OnComplete(copy) => Some(Ok(copy))
      case OnError(message) => Some(Err(message))
      case OnChunk(_) =>
        var r := Settle(calls[1..]);
        assert forall i :: 1 <= i < |calls| ==> calls[i] == calls[1..][i - 1];
        r
  }

  /** Chunks never settle the promise: it settles with the terminal call that follows them. */
  lemma {:induction false} SettleAfterChunks(chunks: seq<string>, last: Callback)
    requires last.Terminal()
    ensures Settle(ChunkCalls(chunks) + [last])
            == Some(if last.OnComplete? then Ok(last.copy) else Err(last.message))
  {
    if |chunks| > 0 {
      assert (ChunkCalls(chunks) + [last])[1..] == ChunkCalls(chunks[1..]) + [last];
      SettleAfterChunks(chunks[1..], last);
    } else {
      assert ChunkCalls(chunks) + [last] == [last];
    }
  }

  /**
   * `generateTiktokCopy(product, options)`: ignores the chunks and resolves with the
   * `onComplete` copy, or rejects with the `onError` error.
   */
  method GenerateTiktokCopy(product: Product, options: TikTokCopyOptions, stream: Stream,
                            parse: string -> Option<TiktokParse>, now: int)
    returns (r: Result<TikTokCopy, string>)
    ensures r.Ok? <==> stream.end.StreamDone?
    ensures r.Ok? ==> r.value == CopyOf(product, options.styleId,
                                         ParseTiktokResponse(Concat(NonEmptyDeltas(stream.chunks)), parse), now)
    ensures r.Err? ==> r.error == MessageOr(stream.end.thrown, "生成失败")
  {
    var _, calls := GenerateTiktokCopyStream(product, options, stream, parse, now);
    var last := TerminalCall(product, options, stream, parse, now);
    SettleAfterChunks(NonEmptyDeltas(stream.chunks), last);
    var settled := Settle(calls);
    r := settled.value;
  }
}
