/**
 * The DeepSeek chat client. A streamed completion is a sequence of chunks that
 * ends normally or by throwing; `generateStream` appends every non-empty delta to
 * the text it returns and forwards it to `onChunk`. `generateWithoutStream` reads
 * the first choice's message.
 */
module DeepseekClient {
  import opened Base

  /** A chat message sent to the model. */
  datatype ChatMessage = System(content: string) | User(content: string)

  datatype Delta = Delta(content: Option<string>)
  datatype StreamChoice = StreamChoice(delta: Option<Delta>)
  /** One chunk of a streamed completion. */
  datatype Chunk = Chunk(choices: seq<StreamChoice>)

  /** How the stream ends: normally, or by throwing (a failed request throws before any chunk). */
  datatype StreamEnd = StreamDone | StreamThrows(thrown: Thrown)

  /** The streamed completion the service returns, as the client sees it. */
  datatype Stream = Stream(chunks: seq<Chunk>, end: StreamEnd)

  /** `chunk.choices[0]?.delta?.content || ''` */
  function DeltaText(chunk: Chunk): (r: string)
    ensures r != "" <==> |chunk.choices| > 0 && chunk.choices[0].delta.Some?
                         && Present(chunk.choices[0].delta.value.content)
  {
    if |chunk.choices| == 0 then ""
    else match chunk.choices[0].delta
      case None => ""
      case Some(d) => OrElse(d.content, "")
  }

  /** The deltas of the chunks that carry text, in stream order. */
  function NonEmptyDeltas(chunks: seq<Chunk>): (r: seq<string>)
    ensures forall i :: 0 <= i < |r| ==> r[i] != ""
    ensures |r| <= |chunks|
  {
    if chunks == [] then []
    else
      var last := DeltaText(chunks[|chunks| - 1]);
      NonEmptyDeltas(chunks[..|chunks| - 1]) + (if last != "" then [last] else [])
  }

  /** Every delta, empty or not, in stream order. */
  function AllDeltas(chunks: seq<Chunk>): (r: seq<string>)
    ensures |r| == |chunks|
    ensures forall i :: 0 <= i < |chunks| ==> r[i] == DeltaText(chunks[i])
  {
    seq(|chunks|, i requires 0 <= i < |chunks| => DeltaText(chunks[i]))
  }

  /**
   * `generateStream(messages, onChunk)`: the text, or what the stream threw; `forwarded`
   * holds the arguments of the `onChunk` calls, in order. The messages only shape the
   * service's answer, which is given as `stream`.
   */
  method GenerateStream(messages: seq<ChatMessage>, stream: Stream) returns (r: Result<string, Thrown>, forwarded: seq<string>)
    ensures forwarded == NonEmptyDeltas(stream.chunks)
    ensures stream.end.StreamDone? ==> r == Ok(Concat(forwarded))
    ensures stream.end.StreamThrows? ==> r == Err(stream.end.thrown)
  {
    var fullText := "";
    forwarded := [];
    var i := 0;
    while i < |stream.chunks|
      invariant 0 <= i <= |stream.chunks|
      invariant forwarded == NonEmptyDeltas(stream.chunks[..i])
      invariant fullText == Concat(forwarded)
    {
      var content := DeltaText(stream.chunks[i]);
      if content != "" {
        fullText := fullText + content;
        forwarded := forwarded + [content];
      }
      assert stream.chunks[..i + 1][..i] == stream.chunks[..i];
      i := i + 1;
    }
    assert stream.chunks[..i] == stream.chunks;
    if stream.end.StreamThrows? {
      r := Err(stream.end.thrown);
    } else {
      r := Ok(fullText);
    }
  }

  /** Dropping the empty deltas does not change the text: it is the concatenation of every delta. */
  lemma {:induction false} EmptyDeltasContributeNothing(chunks: seq<Chunk>)
    ensures Concat(NonEmptyDeltas(chunks)) == Concat(AllDeltas(chunks))
  {
    if chunks != [] {
      var init := chunks[..|chunks| - 1];
      EmptyDeltasContributeNothing(init);
      var last := DeltaText(chunks[|chunks| - 1]);
      assert AllDeltas(chunks) == AllDeltas(init) + [last];
      ConcatAppend(AllDeltas(init), [last]);
      if last != "" {
        ConcatAppend(NonEmptyDeltas(init), [last]);
      } else {
        assert NonEmptyDeltas(chunks) == NonEmptyDeltas(init) + [];
        assert NonEmptyDeltas(init) + [] == NonEmptyDeltas(init);
        assert [last][..0] == [];
        assert Concat([last]) == "";
        assert Concat(AllDeltas(init)) + "" == Concat(AllDeltas(init));
      }
    }
  }

  /** A stream whose chunks carry no text yields "" and no `onChunk` call. */
  lemma {:induction false} SilentStream(chunks: seq<Chunk>)
    requires forall i :: 0 <= i < |chunks| ==> DeltaText(chunks[i]) == ""
    ensures NonEmptyDeltas(chunks) == []
  {
    if chunks != [] {
      SilentStream(chunks[..|chunks| - 1]);
    }
  }

  /** Each chunk with text is forwarded exactly once: the forwarded deltas of a concatenation of streams concatenate. */
  lemma {:induction false} DeltasAppend(xs: seq<Chunk>, ys: seq<Chunk>)
    ensures NonEmptyDeltas(xs + ys) == NonEmptyDeltas(xs) + NonEmptyDeltas(ys)
    decreases |ys|
  {
    if ys == [] {
      assert xs + ys == xs;
    } else {
      assert (xs + ys)[..|xs + ys| - 1] == xs + ys[..|ys| - 1];
      DeltasAppend(xs, ys[..|ys| - 1]);
    }
  }

  datatype CompletionMessage = CompletionMessage(content: Option<string>)
  datatype CompletionChoice = CompletionChoice(message: Option<CompletionMessage>)
  /** The response to a non-streamed completion request. */
  datatype Completion = Completion(choices: seq<CompletionChoice>)

  /** `generateWithoutStream(messages)`: `response.choices[0]?.message?.content || ''`. */
  function GenerateWithoutStream(messages: seq<ChatMessage>, response: Completion): (r: string)
    ensures |response.choices| > 0 && response.choices[0].message.Some?
            && Present(response.choices[0].message.value.content)
            ==> r == response.choices[0].message.value.content.value
    ensures !(|response.choices| > 0 && response.choices[0].message.Some?
              && Present(response.choices[0].message.value.content))
            ==> r == ""
  {
    if |response.choices| == 0 then ""
    else match response.choices[0].message
      case None => ""
      case Some(m) => OrElse(m.content, "")
  }
}
