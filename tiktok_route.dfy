/**
 * `POST /api/generate/tiktok`: two ordered request checks answered 400, then a
 * server-sent-event stream whose controller receives a `start` frame, one
 * `streaming` frame per forwarded chunk, and one `complete` or `error` frame
 * followed by close. A body that cannot be read is answered 500.
 */
module TiktokRoute {
  import opened Base
  import opened Types
  import opened DeepseekClient
  import opened DeepseekPrompts
  import opened TiktokGenerator

  /** The fields the `complete` event carries: a copy without `streamedContent` and `error`. */
  datatype CopyResult = CopyResult(
    id: string,
    productId: string,
    styleId: string,
    hook: string,
    content: string,
    cta: string,
    hashtags: seq<string>,
    status: CopyStatus,
    generatedAt: int)

  /** The JSON objects the route serialises. */
  datatype Event =
    | StartEvent(productId: string)
    | StreamingEvent(text: string)
    | CompleteEvent(result: CopyResult)
    | ErrorEvent(error: string)

  /** The projection of a copy onto the nine fields of the `complete` event. */
  function Project(c: TikTokCopy): (r: CopyResult)
    ensures r.id == c.id && r.productId == c.productId && r.styleId == c.styleId
    ensures r.hook == c.hook && r.content == c.content && r.cta == c.cta && r.hashtags == c.hashtags
    ensures r.status == c.status && r.generatedAt == c.generatedAt
  {
    CopyResult(c.id, c.productId, c.styleId, c.hook, c.content, c.cta, c.hashtags, c.status, c.generatedAt)
  }

  /** One server-sent event: "data: ", the JSON text (`JSON.stringify` is `stringify`), a blank line. */
  function Frame(stringify: Event -> string, e: Event): (r: string)
    ensures |r| == |stringify(e)| + 8
    ensures r[..6] == "data: " && r[|r| - 2..] == "\n\n" && r[6..|r| - 2] == stringify(e)
  {
    "data: " + stringify(e) + "\n\n"
  }

  /** What happens to the stream's controller. The text is given before encoding. */
  datatype StreamOp = Enqueued(text: string) | Closed

  /** The controller of the response stream: what was enqueued, and whether it was closed. */
  class Controller {
    var ops: seq<StreamOp>
    var closed: bool

    constructor()
      ensures ops == [] && !closed
    {
      ops := [];
      closed := false;
    }

    /** `controller.enqueue(encoder.encode(text))`; a closed stream refuses more data. */
    method Enqueue(text: string)
      requires !closed
      modifies this
      ensures ops == old(ops) + [Enqueued(text)] && !closed
    {
      ops := ops + [Enqueued(text)];
    }

    /** `controller.close()` */
    method Close()
      requires !closed
      modifies this
      ensures ops == old(ops) + [Closed] && closed
    {
      ops := ops + [Closed];
      closed := true;
    }
  }

  /** What one generator callback does to the controller. */
  function OpsFor(stringify: Event -> string, call: Callback): (r: seq<StreamOp>)
    ensures call.OnChunk? ==> r == [Enqueued(Frame(stringify, StreamingEvent(call.chunk)))]
    ensures call.OnComplete? ==> r == [Enqueued(Frame(stringify, CompleteEvent(Project(call.copy)))), Closed]
    ensures call.OnError? ==> r == [Enqueued(Frame(stringify, ErrorEvent(call.message))), Closed]
  {
    match call
    case OnChunk(text) => [Enqueued(Frame(stringify, StreamingEvent(text)))]
    case OnComplete(copy) => [Enqueued(Frame(stringify, CompleteEvent(Project(copy)))), Closed]
    case OnError(message) => [Enqueued(Frame(stringify, ErrorEvent(message))), Closed]
  }

  /** What a sequence of callbacks does to the controller, in order. */
  function OpsOf(stringify: Event -> string, calls: seq<Callback>): seq<StreamOp>
  {
    if |calls| == 0 then [] else OpsFor(stringify, calls[0]) + OpsOf(stringify, calls[1..])
  }

  lemma {:induction false} OpsOfAppend(stringify: Event -> string, xs: seq<Callback>, ys: seq<Callback>)
    ensures OpsOf(stringify, xs + ys) == OpsOf(stringify, xs) + OpsOf(stringify, ys)
  {
    if |xs| == 0 {
      assert xs + ys == ys;
    } else {
      assert (xs + ys)[1..] == xs[1..] + ys;
      OpsOfAppend(stringify, xs[1..], ys);
    }
  }

  /** One more call adds its own operations at the end. */
  lemma OpsOfPrefix(stringify: Event -> string, calls: seq<Callback>, i: int)
    requires 0 <= i < |calls|
    ensures OpsOf(stringify, calls[..i + 1]) == OpsOf(stringify, calls[..i]) + OpsFor(stringify, calls[i])
  {
    assert calls[..i + 1] == calls[..i] + [calls[i]];
    OpsOfAppend(stringify, calls[..i], [calls[i]]);
    assert OpsOf(stringify, [calls[i]]) == OpsFor(stringify, calls[i]) + OpsOf(stringify, []);
  }

  /** The `streaming` frames for a sequence of chunks, one per chunk, in order. */
  lemma {:induction false} StreamingFrames(stringify: Event -> string, chunks: seq<string>)
    ensures var ops := OpsOf(stringify, ChunkCalls(chunks));
            |ops| == |chunks|
            && forall i :: 0 <= i < |chunks| ==> ops[i] == Enqueued(Frame(stringify, StreamingEvent(chunks[i])))
  {
    if |chunks| > 0 {
      assert ChunkCalls(chunks)[1..] == ChunkCalls(chunks[1..]);
      StreamingFrames(stringify, chunks[1..]);
    }
  }

  /** Everything the stream's `start` enqueues and closes, in order. */
  function StreamOps(product: Product, options: TikTokCopyOptions, stream: Stream,
                     parse: string -> Option<TiktokParse>, now: int, stringify: Event -> string): seq<StreamOp>
  {
    [Enqueued(Frame(stringify, StartEvent(product.id)))]
    + OpsOf(stringify, Callbacks(product, options, stream, parse, now))
  }

  /**
   * The three callbacks the route passes to the generator, applied to the calls the
   * generator makes: chunks are enqueued as `streaming` frames, the terminal call is
   * enqueued and closes the stream.
   */
  method Relay(controller: Controller, calls: seq<Callback>, stringify: Event -> string)
    requires !controller.closed
    requires |calls| > 0 && calls[|calls| - 1].Terminal()
    requires forall j :: 0 <= j < |calls| - 1 ==> !calls[j].Terminal()
    modifies controller
    ensures controller.ops == old(controller.ops) + OpsOf(stringify, calls)
    ensures controller.closed
  {
    var i := 0;
    while i < |calls|
      invariant 0 <= i <= |calls|
      invariant controller.ops == old(controller.ops) + OpsOf(stringify, calls[..i])
      invariant controller.closed <==> i == |calls|
    {
      ghost var before := controller.ops;
      match calls[i] {
        case OnChunk(text) =>
          controller.Enqueue(Frame(stringify, StreamingEvent(text)));
        case OnComplete(copy) =>
          controller.Enqueue(Frame(stringify, CompleteEvent(Project(copy))));
          controller.Close();
        case OnError(message) =>
          controller.Enqueue(Frame(stringify, ErrorEvent(message)));
          controller.Close();
      }
      assert controller.ops == before + OpsFor(stringify, calls[i]);
      OpsOfPrefix(stringify, calls, i);
      AppendAssoc(old(controller.ops), OpsOf(stringify, calls[..i]), OpsFor(stringify, calls[i]));
      i := i + 1;
    }
    assert calls[..i] == calls;
  }

  /** The body of the stream's `start(controller)`: the `start` frame, then the generator with the relaying callbacks. */
  method RunStream(controller: Controller, product: Product, options: TikTokCopyOptions, stream: Stream,
                   parse: string -> Option<TiktokParse>, now: int, stringify: Event -> string)
    requires !controller.closed
    modifies controller
    ensures controller.ops == old(controller.ops) + StreamOps(product, options, stream, parse, now, stringify)
    ensures controller.closed
  {
    controller.Enqueue(Frame(stringify, StartEvent(product.id)));
    var _, calls := GenerateTiktokCopyStream(product, options, stream, parse, now);
    CallbackProtocol(product, options, stream, parse, now);
    ghost var started := controller.ops;
    Relay(controller, calls, stringify);
    assert controller.ops == started + OpsOf(stringify, calls);
    assert started == old(controller.ops) + [Enqueued(Frame(stringify, StartEvent(product.id)))];
    assert StreamOps(product, options, stream, parse, now, stringify)
           == [Enqueued(Frame(stringify, StartEvent(product.id)))] + OpsOf(stringify, calls);
    AppendAssoc(old(controller.ops), [Enqueued(Frame(stringify, StartEvent(product.id)))], OpsOf(stringify, calls));
  }

  lemma AppendAssoc<T>(a: seq<T>, b: seq<T>, c: seq<T>)
    ensures (a + b) + c == a + (b + c)
  {
  }

  /**
   * The frame sequence: `start` with the product id first, one `streaming` frame per chunk
   * with the chunk verbatim, then one terminal frame, and close last and only there.
   */
  lemma {:induction false} FrameSequence(product: Product, options: TikTokCopyOptions, stream: Stream,
                                         parse: string -> Option<TiktokParse>, now: int, stringify: Event -> string)
    ensures var ops := StreamOps(product, options, stream, parse, now, stringify);
            var chunks := NonEmptyDeltas(stream.chunks);
            |ops| == |chunks| + 3
            && ops[0] == Enqueued(Frame(stringify, StartEvent(product.id)))
            && (forall i :: 0 <= i < |chunks| ==> ops[i + 1] == Enqueued(Frame(stringify, StreamingEvent(chunks[i]))))
            && ops[|ops| - 1] == Closed
            && (forall i :: 0 <= i < |ops| - 1 ==> ops[i].Enqueued?)
  {
    var chunks := NonEmptyDeltas(stream.chunks);
    var start := [Enqueued(Frame(stringify, StartEvent(product.id)))];
    var middle := OpsOf(stringify, ChunkCalls(chunks));
    var tail := OpsFor(stringify, TerminalCall(product, options, stream, parse, now));
    var ops := StreamOps(product, options, stream, parse, now, stringify);
    StreamOpsSplit(product, options, stream, parse, now, stringify);
    StreamingFrames(stringify, chunks);
    assert |tail| == 2 && tail[0].Enqueued? && tail[1] == Closed;
    assert forall i :: 0 <= i < |middle| ==> middle[i].Enqueued?;
    OpsAroundMiddle(ops, start[0], middle, tail);
  }

  /** A start operation, enqueued middle operations, then an enqueue and a close. */
  lemma OpsAroundMiddle(ops: seq<StreamOp>, first: StreamOp, middle: seq<StreamOp>, tail: seq<StreamOp>)
    requires ops == [first] + middle + tail && first.Enqueued?
    requires |tail| == 2 && tail[0].Enqueued? && tail[1] == Closed
    requires forall i :: 0 <= i < |middle| ==> middle[i].Enqueued?
    ensures |ops| == |middle| + 3 && ops[0] == first && ops[|ops| - 1] == Closed
    ensures forall i :: 0 <= i < |middle| ==> ops[i + 1] == middle[i]
    ensures forall i :: 0 <= i < |ops| - 1 ==> ops[i].Enqueued?
  {
    forall i | 0 <= i < |ops| - 1
      ensures ops[i].Enqueued?
    {
      PartsIndex([first], middle, tail, i);
    }
  }

  /** The frame before the close: `complete` with the projected copy, or `error` with the generator's message. */
  lemma {:induction false} TerminalFrame(product: Product, options: TikTokCopyOptions, stream: Stream,
                                         parse: string -> Option<TiktokParse>, now: int, stringify: Event -> string)
    ensures var ops := StreamOps(product, options, stream, parse, now, stringify);
            |ops| >= 2
            && (stream.end.StreamDone? ==>
                  ops[|ops| - 2] == Enqueued(Frame(stringify, CompleteEvent(Project(CopyOf(product, options.styleId,
                                     ParseTiktokResponse(Concat(NonEmptyDeltas(stream.chunks)), parse), now))))))
            && (stream.end.StreamThrows? ==>
                  ops[|ops| - 2] == Enqueued(Frame(stringify, ErrorEvent(MessageOr(stream.end.thrown, "生成失败")))))
  {
    var start := [Enqueued(Frame(stringify, StartEvent(product.id)))];
    var middle := OpsOf(stringify, ChunkCalls(NonEmptyDeltas(stream.chunks)));
    var tail := OpsFor(stringify, TerminalCall(product, options, stream, parse, now));
    var ops := StreamOps(product, options, stream, parse, now, stringify);
    StreamOpsSplit(product, options, stream, parse, now, stringify);
    assert ops == start + middle + tail;
    assert |tail| == 2 && ops[|ops| - 2] == tail[0];
  }

  /** The stream's operations split into the start frame, the chunk frames and the terminal call's operations. */
  lemma {:induction false} StreamOpsSplit(product: Product, options: TikTokCopyOptions, stream: Stream,
                                          parse: string -> Option<TiktokParse>, now: int, stringify: Event -> string)
    ensures StreamOps(product, options, stream, parse, now, stringify)
            == [Enqueued(Frame(stringify, StartEvent(product.id)))]
               + OpsOf(stringify, ChunkCalls(NonEmptyDeltas(stream.chunks)))
               + OpsFor(stringify, TerminalCall(product, options, stream, parse, now))
  {
    var last := TerminalCall(product, options, stream, parse, now);
    OpsOfAppend(stringify, ChunkCalls(NonEmptyDeltas(stream.chunks)), [last]);
    assert OpsOf(stringify, [last]) == OpsFor(stringify, last) + OpsOf(stringify, []);
  }

  /** The parsed request body; a missing style id reads "". */
  datatype TiktokRequest = TiktokRequest(product: Option<Product>, options: Option<TikTokCopyOptions>)

  /** A JSON answer with a status, or the event stream (status 200). */
  datatype Response = JsonResponse(status: int, body: string) | EventStream(ops: seq<StreamOp>)
  {
    function Status(): int
    {
      if JsonResponse? then status else 200
    }

    function Headers(): seq<(string, string)>
    {
      if JsonResponse? then [("Content-Type", "application/json")]
      else [("Content-Type", "text/event-stream"), ("Cache-Control", "no-cache"), ("Connection", "keep-alive")]
    }
  }

  /**
   * `POST(request)` with the parsed body (or what reading it threw), the model's stream,
   * `JSON.parse`, the clock and `JSON.stringify`.
   */
  method Post(body: Result<TiktokRequest, Thrown>, stream: Stream, parse: string -> Option<TiktokParse>,
              now: int, stringify: Event -> string)
    returns (response: Response)
    ensures body.Err? ==>
              response == JsonResponse(500, stringify(ErrorEvent(MessageOr(body.error, "Internal server error"))))
    ensures body.Ok? && body.value.product.None? ==>
              response == JsonResponse(400, stringify(ErrorEvent("No product provided")))
    ensures body.Ok? && body.value.product.Some? && (body.value.options.None? || body.value.options.value.styleId == "") ==>
              response == JsonResponse(400, stringify(ErrorEvent("No style selected")))
    ensures body.Ok? && body.value.product.Some? && body.value.options.Some? && body.value.options.value.styleId != "" ==>
              response == EventStream(StreamOps(body.value.product.value, body.value.options.value, stream, parse, now, stringify))
  {
    match body
    case Err(thrown) =>
      response := JsonResponse(500, stringify(ErrorEvent(MessageOr(thrown, "Internal server error"))));
    case Ok(request) =>
      if request.product.None? {
        response := JsonResponse(400, stringify(ErrorEvent("No product provided")));
      } else if request.options.None? || request.options.value.styleId == "" {
        response := JsonResponse(400, stringify(ErrorEvent("No style selected")));
      } else {
        var controller := new Controller();
        RunStream(controller, request.product.value, request.options.value, stream, parse, now, stringify);
        response := EventStream(controller.ops);
      }
  }

  /** The event stream is served with the three streaming headers; every other answer is JSON. */
  lemma ResponseHeaders(response: Response)
    ensures response.EventStream? ==>
              response.Status() == 200 && ("Content-Type", "text/event-stream") in response.Headers()
              && ("Cache-Control", "no-cache") in response.Headers() && ("Connection", "keep-alive") in response.Headers()
    ensures response.JsonResponse? ==> response.Headers() == [("Content-Type", "application/json")]
  {
  }
}
