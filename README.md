# vibe-ec-dashboard, modelled in Dafny

vibe-ec-dashboard is a dashboard for e-commerce sellers. A seller enters products, and the dashboard then:

- generates a title and selling points for each product with a chat model (DeepSeek), one product after another, or from saved templates;
- streams short-video (TikTok-style) copy to the browser as server-sent events;
- generates product images with Qwen-Image, which creates a task and then polls it until it finishes;
- analyses product photos with a vision model (Qwen-VL).

Templates and library materials are kept in browser storage.

This project models the logic around those services, one Dafny module per source file:

- the polling loop of the image client;
- the streaming relay from the chat client to the server-sent event stream;
- the prompt builders and answer parsers, including their code-fence stripping and fixed fallbacks;
- the request validators of the three API routes;
- the sequential batch loop and the first-occurrence template substitution of both content generators;
- the keyed stores;
- the handlers of the batch page;
- the list and line helpers of the form and card components.

`Base` holds the JavaScript behaviour the code relies on: truthiness of optional strings, `trim`, `split`, `join`, `includes`, `replace` with a string pattern, and `filter`. `Types` holds the record shapes.

Every external effect is a parameter:

- an HTTP or SDK answer is a `Result` value, or a function from the attempt number to the response;
- `JSON.parse` is a partial function `string -> Option<T>`, and `JSON.stringify` an uninterpreted function;
- the clock is an integer `now`;
- random draws are values in [0, 1), and the shuffle is any permutation;
- a stored list is the parsed value of its storage key;
- `URL.createObjectURL` is a function `objectUrl`.

What a loop does outside itself is recorded as a sequence of effects: task creation, progress calls, sleeps, polls, `onChunk` calls and stream frames. Its order is stated against a loop-free specification function.

## Model

| member | source | states |
|---|---|---|
| Base.MessageOr | lib/deepseekGenerator.ts:47 | an Error gives its message, any other thrown value the fallback |
| Base.OrElse | lib/deepseek/prompts.ts:14-17 | `o or d`: the string when present and non-empty, the default otherwise |
| Base.NonEmpty | components/template-library/TemplateLibraryPage.tsx:51-53 | `s or undefined`: present exactly for a non-empty string, and then the string |
| Base.Trim | components/template-library/TemplateLibraryPage.tsx:44-50 | the trimmed text is a contiguous piece of the input, after its leading white space, with no white space at either end |
| Base.TrimIsBoth | components/template-library/TemplateLibraryPage.tsx:50 | trimming is dropping the leading white space and then the trailing white space, and everything it drops at either end is white space |
| Base.TrimStart | components/template-library/TemplateLibraryPage.tsx:50 | only leading white space is dropped, and the rest starts with a non-space |
| Base.TrimEnd | components/template-library/TemplateLibraryPage.tsx:50 | only trailing white space is dropped, and the rest ends with a non-space |
| Base.TrimIdentity | components/template-library/TemplateLibraryPage.tsx:50 | a text already without white space at its ends is its own trim |
| Base.TrimEmpty | components/template-library/TemplateLibraryPage.tsx:44 | a name is blank after trimming exactly when it is all white space |
| Base.ToLower | components/template-library/TemplateLibraryPage.tsx:38-39 | lower-casing keeps the length and folds each character on its own |
| Base.IndexOf | lib/deepseekGenerator.ts:95 | the first position where the pattern occurs, and none exactly when it occurs nowhere |
| Base.ReplaceFirst | lib/deepseekGenerator.ts:95-100 | a pattern that occurs nowhere leaves the text unchanged |
| Base.ReplaceFirstAt | lib/deepseekGenerator.ts:95-100 | with no earlier occurrence, the first occurrence is the one replaced and the text around it is kept |
| Base.ExpandLiteral | lib/deepseekGenerator.ts:95 | a replacement without '$' is inserted literally |
| Base.Filter | components/template-library/TemplateLibraryPage.tsx:35-50 | the kept elements are those of the input satisfying the predicate, every one of them |
| Base.FilterAppend | components/template-library/TemplateLibraryPage.tsx:35 | filtering distributes over concatenation, so the order is kept |
| Base.FilterAll | components/template-library/TemplateLibraryPage.tsx:35 | a filter every element passes keeps the list |
| Base.Split | components/template-library/TemplateLibraryPage.tsx:50-55 | at least one piece, none holding the separator |
| Base.JoinSplit | components/template-library/TemplateLibraryPage.tsx:55 | joining the pieces back with the separator gives the text |
| Base.SplitJoin | components/template-library/TemplateLibraryPage.tsx:55-80 | pieces without the separator joined by it split back into the same pieces |
| Base.SplitAppend | components/template-library/TemplateLibraryPage.tsx:55 | a separator splits the text into the pieces before it followed by those after it |
| Base.SplitNoSep | components/template-library/TemplateLibraryPage.tsx:55 | a text without the separator is a single piece |
| Base.TrimAll | components/template-library/TemplateLibraryPage.tsx:50 | each piece trimmed, in place |
| Base.SplitTrimmed | components/template-library/TemplateLibraryPage.tsx:50 | the split, trimmed, non-empty pieces, each without the separator and without white space at either end |
| Base.TrimInfix | components/template-library/TemplateLibraryPage.tsx:50 | trimming adds no character |
| Base.TrimmedPieces | components/template-library/TemplateLibraryPage.tsx:50 | the non-empty trimmed pieces hold no separator and no end white space |
| Base.SplitTrimmedAppend | components/template-library/TemplateLibraryPage.tsx:50 | a separator divides the clean pieces into those before it followed by those after it |
| Base.SplitTrimmedJoin | components/template-library/TemplateLibraryPage.tsx:50-77 | clean pieces joined by the separator come back unchanged |
| Base.SplitTrimmedIdempotent | components/template-library/TemplateLibraryPage.tsx:50 | splitting and cleaning what a clean split joins again changes nothing |
| Base.ConcatAppend | lib/deepseek/client.ts:36-44 | concatenating two stretches of text pieces is concatenating their concatenations |
| Base.NatToString | lib/imageAnalysisGenerator.ts:28-46 | the decimal text of a natural number is non-empty and made of digits only |
| Base.NatToStringValue | lib/imageAnalysisGenerator.ts:28-46 | the digits spell the number back, most significant first, with no leading zero unless the number is 0 |
| Base.IntToString | lib/imageAnalysisGenerator.ts:28-46 | the text an integer interpolates to is never empty |
| Base.IntToStringValue | lib/imageAnalysisGenerator.ts:28-46 | a non-negative integer is written as its digits, which spell it back; a negative one as '-' followed by the digits of its magnitude |
| Base.Join | components/template-library/TemplateLibraryPage.tsx:77-80 | joining no pieces gives "" and joining one piece gives that piece, with no separator |
| Types.FirstImage | lib/deepseekGenerator.ts:28 | `images[0]`: present exactly when the product has an image, and then its first |
| QwenImageClient.TerminalOutcome | lib/qwen-image/client.ts:80-90 | a terminal poll succeeds exactly on SUCCEED with at least one image and then yields the first image; SUCCEED without images, FAILED and a rejected status response each end the call with their own error |
| QwenImageClient.PollCount | lib/qwen-image/client.ts:70-93 | the number of polls is the first attempt whose response is terminal, or `maxAttempts` when none is; every earlier poll was PENDING or RUNNING |
| QwenImageClient.GenerateImage | lib/qwen-image/client.ts:45-96 | the poll loop's result and its effects (task creation, progress calls only when `onProgress` was supplied, sleeps, polls, in order) are those of the loop-free `Generation`: a missing key fails with no effect, a rejected creation fails after the creation only |
| QwenImageClient.Generation | lib/qwen-image/client.ts:45-96 | the loop-free outcome of a generation; stated by `QwenImageClient.GenerateImage`, `QwenImageClient.TimeoutExactly`, `QwenImageClient.GenerationBounded` and `QwenImageClient.SuccessMeansSucceed` |
| QwenImageClient.CreateFirst | lib/qwen-image/client.ts:55-66 | with a key present, the first effect is the creation of the task with the given prompt |
| QwenImageClient.PollCountAt | lib/qwen-image/client.ts:70-93 | when attempt k is the first terminal one within `maxAttempts`, exactly k polls are made |
| QwenImageClient.AttemptTally | lib/qwen-image/client.ts:71-78 | one attempt is one poll, one progress call when `onProgress` was supplied and none otherwise, plus one sleep of `intervalMs` unless it is the first attempt |
| QwenImageClient.AttemptCounts | lib/qwen-image/client.ts:70-78 | n attempts make n polls, n progress calls with `onProgress` and none without, and n-1 sleeps of `intervalMs` each (k polls cost k-1 sleeps) |
| QwenImageClient.AttemptTallies | lib/qwen-image/client.ts:70-78 | the same counts, with the time slept as a sum of n-1 intervals |
| QwenImageClient.FirstPollWithoutSleep | lib/qwen-image/client.ts:71-78 | polling begins with the first progress call (when `onProgress` was supplied) and then the first poll: no sleep precedes the first poll |
| QwenImageClient.PollsUseTaskId | lib/qwen-image/client.ts:66-128 | every poll asks about the task id the creation returned, used unchecked (possibly absent) |
| QwenImageClient.ProgressPrecedesPoll | lib/qwen-image/client.ts:70-78 | attempt k comes after the effects of attempts 1 to k-1 and ends with its poll; with `onProgress` it starts with the progress call for k of `maxAttempts`, without it no progress is recorded |
| QwenImageClient.TimeoutExactly | lib/qwen-image/client.ts:70-95 | the call times out, naming `maxAttempts`, exactly when none of the `maxAttempts` responses is terminal, and then it has polled `maxAttempts` times |
| QwenImageClient.FailedStopsPolling | lib/qwen-image/client.ts:88-90 | a FAILED status after k-1 non-terminal polls ends the call at attempt k with the task-failed error |
| QwenImageClient.SucceedStopsPolling | lib/qwen-image/client.ts:80-86 | the first SUCCEED ends the call at its attempt, with its first image, or with the no-images error when it carries none |
| QwenImageClient.SuccessMeansSucceed | lib/qwen-image/client.ts:45-96 | a call that returns a URL had a key and a created task, and its last poll was the first terminal one and a SUCCEED whose first image is that URL |
| QwenImageClient.GenerationBounded | lib/qwen-image/client.ts:49-78 | whatever the responses, at most `maxAttempts` polls and at most `(maxAttempts - 1) * intervalMs` milliseconds of sleep; one progress call per poll when `onProgress` was supplied, none otherwise |
| QwenImagePrompts.FindImageStyle | lib/qwen-image/prompts.ts:16 | the style found is one of the image styles and carries the id; there is one exactly when some style has that id |
| QwenImagePrompts.ModifiersForEveryStyle | lib/qwen-image/prompts.ts:44-55 | the modifier table and the style table agree: an id has modifiers exactly when it names one of the eight styles |
| QwenImagePrompts.StyleModifiers | lib/qwen-image/prompts.ts:44-55 | the modifier lookup; stated by `QwenImagePrompts.ModifiersForEveryStyle` |
| QwenImagePrompts.Segment | lib/qwen-image/prompts.ts:64-72 | an optional segment is appended exactly when the field is truthy, with its fixed text around the value |
| QwenImagePrompts.BuildProductDescription | lib/qwen-image/prompts.ts:61-75 | the description built step by step is the head "name, brand brand, category" followed by the material, color and audience segments, each only when present and in that order |
| QwenImagePrompts.DescriptionHead | lib/qwen-image/prompts.ts:62 | every description starts with "name, brand brand, category", and a product without material, color or audience has exactly that description |
| QwenImagePrompts.BuildImagePrompt | lib/qwen-image/prompts.ts:12-27 | an unknown style id throws "Invalid style ID: id"; otherwise the prompt is the style scenario's base prompt, the product description and the style's modifiers joined by ", " and trimmed |
| QwenImagePrompts.ScenarioPrompt | lib/qwen-image/prompts.ts:32-39 | the base prompt of each scenario; its place in the prompt is stated by `QwenImagePrompts.BuildImagePrompt` |
| QwenImagePrompts.ValidateManualPrompt | lib/qwen-image/prompts.ts:80-98 | valid exactly when the trimmed prompt has 10 to 1000 characters; an error is present exactly when invalid, and it is one of the three messages |
| QwenImagePrompts.ValidationMessages | lib/qwen-image/prompts.ts:83-95 | the checks run in order: an all-white-space prompt is reported empty, a trimmed length below 10 short and above 1000 long; white-space padding never changes the verdict |
| GenerateImageRoute.ChoosePrompt | app/api/generate-image/route.ts:43-73 | product mode without a product answers 400 "Product data required for product mode", with an unknown style the 500 envelope "Invalid style ID: <id>", and otherwise takes `buildImagePrompt(product, styleId)` with `product.id`; any other mode without a manual prompt answers 400 "Manual prompt required for manual mode", with a prompt `validateManualPrompt` refuses 400 with that validation's message, and otherwise takes the prompt as typed with no product id |
| GenerateImageRoute.ChoosePromptOk | app/api/generate-image/route.ts:46-73 | a prompt is chosen exactly when the mode's conditions hold: a product and a known style in product mode, otherwise a non-empty manual prompt whose trimmed length is 10 to 1000 |
| GenerateImageRoute.Post | app/api/generate-image/route.ts:21-122 | a missing key answers 500 with no effect; an unreadable body answers the 500 envelope with its message or "Image generation failed"; missing options or an empty style id answer 400 "Style ID is required"; a refused prompt choice gives that choice's answer with no effect; once the choice succeeds the image service is always reached, with 24 attempts at 5000 ms, the answer is never 400, and it is a success exactly when the service returns a URL; success carries that URL, status completed, the style id, the prompt and the chosen product id |
| GenerateImageRoute.ManualPromptVerbatim | app/api/generate-image/route.ts:71-100 | an accepted manual prompt is sent upstream as typed, untrimmed, and the result has a null product id |
| GenerateImageRoute.ManualModeSkipsStyleTable | app/api/generate-image/route.ts:35-73 | in manual mode any non-empty style id reaches the image service, known to the style table or not |
| GenerateImageRoute.ProductModeUnknownStyle | app/api/generate-image/route.ts:54-121 | in product mode an unknown style id is answered 500 with the builder's "Invalid style ID" message, before any upstream call |
| GenerateImageRoute.UpstreamFailureIs500 | app/api/generate-image/route.ts:79-121 | every failure of the polling client is answered 500 with `success:false` and the client's error message |
| GenerateImageRoute.RouteBounded | app/api/generate-image/route.ts:14-85 | whatever the upstream does, a request polls at most 24 times and sleeps at most 115 seconds, inside the two-minute `maxDuration` |
| DeepseekClient.DeltaText | lib/deepseek/client.ts:38 | a chunk's delta text is non-empty exactly when the first choice has a delta whose content is a non-empty string |
| DeepseekClient.NonEmptyDeltas | lib/deepseek/client.ts:37-43 | the forwarded deltas are all non-empty and no more numerous than the chunks |
| DeepseekClient.AllDeltas | lib/deepseek/client.ts:37-38 | one delta text per chunk, in stream order |
| DeepseekClient.GenerateStream | lib/deepseek/client.ts:23-45 | `onChunk` receives exactly the non-empty deltas, unchanged and in stream order; a stream that ends normally returns the concatenation of what was forwarded, and one that throws rejects with what it threw |
| DeepseekClient.EmptyDeltasContributeNothing | lib/deepseek/client.ts:38-40 | dropping the empty deltas does not change the text: it equals the concatenation of every delta |
| DeepseekClient.SilentStream | lib/deepseek/client.ts:38-42 | a stream whose chunks carry no text forwards nothing (and so returns "") |
| DeepseekClient.DeltasAppend | lib/deepseek/client.ts:37-43 | the forwarded deltas of two stretches of stream are those of the first followed by those of the second: each delta is forwarded once, in order |
| DeepseekClient.GenerateWithoutStream | lib/deepseek/client.ts:48-61 | the first choice's message content when it is a non-empty string, and '' otherwise |
| DeepseekPrompts.StripFences | lib/deepseek/prompts.ts:36 | deleting the fences never lengthens the answer (what it deletes is stated by the lemmas below) |
| DeepseekPrompts.StripFencesNoBacktick | lib/deepseek/prompts.ts:36 | an answer without a backtick passes the fence deletion unchanged |
| DeepseekPrompts.StripFencesKeeps | lib/deepseek/prompts.ts:36 | a character where neither alternative of the pattern matches is kept |
| DeepseekPrompts.StripFencesPrefix | lib/deepseek/prompts.ts:36 | a backtick-free front is kept verbatim unless its final newline joins a following "```" into a "\n```" match |
| DeepseekPrompts.FrontKept | lib/deepseek/prompts.ts:36 | the first character of a backtick-free front survives the deletion |
| DeepseekPrompts.NoBacktickTail | lib/deepseek/prompts.ts:36 | dropping the first character of backtick-free text leaves it backtick-free |
| DeepseekPrompts.StripClosing | lib/deepseek/prompts.ts:36 | a closing "\n```" is deleted whole |
| DeepseekPrompts.FencedBody | lib/deepseek/prompts.ts:36-166 | a body wrapped in "```json\n" and "\n```" comes out exactly as the body |
| DeepseekPrompts.LeadingNewlineKeepsTag | lib/deepseek/prompts.ts:36-166 | a newline before the opening fence lets the "\n```" alternative win, so the "json" tag stays in the cleaned text |
| DeepseekPrompts.ParseProductResponse | lib/deepseek/prompts.ts:31-45 | whatever `JSON.parse` accepts of the trimmed, fence-free answer is returned; when it throws the result is the fixed fallback title 'AI生成标题' with the two stock points |
| DeepseekPrompts.ProductFenceTransparent | lib/deepseek/prompts.ts:36-37 | wrapping a trimmed backtick-free JSON body in a json fence does not change what is parsed |
| DeepseekPrompts.BuildTiktokSystemPrompt | lib/deepseek/prompts.ts:49-73 | the fixed system prompt `TIKTOK_SYSTEM_PROMPT`, its lines joined by "\n"; `TiktokGenerator.GenerateTiktokCopyStream` states that it is the system message of every request |
| DeepseekPrompts.ProductPromptDefaults | lib/deepseek/prompts.ts:14-17 | a missing or empty material, color or size is written as '未指定' and a missing audience as '通用' |
| DeepseekPrompts.BuildProductPrompt | lib/deepseek/prompts.ts:7-29 | the prompt itself; its defaults are stated by `DeepseekPrompts.ProductPromptDefaults`, and its use by `DeepseekGenerator.ContentMessages` |
| DeepseekPrompts.ParseTiktokResponse | lib/deepseek/prompts.ts:159-177 | the parsed copy of the cleaned answer, or, when parsing throws, an empty hook, the raw answer as content, the stock call to action and no hashtags |
| DeepseekPrompts.TiktokFallbackKeepsRawAnswer | lib/deepseek/prompts.ts:166-172 | when a fenced answer fails to parse the fallback content is the raw answer with its fences, not the cleaned text |
| DeepseekPrompts.Interpolated | lib/deepseek/prompts.ts:148-152 | a missing table entry reads "undefined" in the template, a present one reads as its text |
| DeepseekPrompts.StylePromptForEveryStyle | lib/deepseek/prompts.ts:76-118 | the style table has an entry exactly for the six TikTok style ids |
| DeepseekPrompts.InfoLine | lib/deepseek/prompts.ts:142-145 | an optional product line is written, prefix, value and newline, only when the field is truthy |
| DeepseekPrompts.BuildTiktokPrompt | lib/deepseek/prompts.ts:126-157 | the string the step-by-step builder returns is the style text, a blank line, the product block and the closing request |
| DeepseekPrompts.TiktokPromptStartsWithStyle | lib/deepseek/prompts.ts:133-152 | the prompt begins with the chosen style's instructions |
| DeepseekPrompts.TiktokPromptTail | lib/deepseek/prompts.ts:147-156 | the product block ends with the length instruction and the hashtag line, which asks for 3-5 tags exactly when `includeHashtags` is set, and the prompt ends with the closing request |
| DeepseekPrompts.TiktokOptionalLines | lib/deepseek/prompts.ts:135-147 | with no optional field the block is its head followed by the requirements; a truthy material's line comes right after the head |
| TiktokGenerator.ChunkCalls | lib/tiktokGenerator.ts:29-32 | one `onChunk` call per forwarded fragment, carrying it unchanged, in order |
| TiktokGenerator.ChunkCallsAppend | lib/tiktokGenerator.ts:29-32 | forwarding one more fragment adds exactly one `onChunk` call, at the end |
| TiktokGenerator.CopyOf | lib/tiktokGenerator.ts:36-46 | the completed copy carries the parsed hook, content, cta and hashtags, the product id, the style id, the status 'completed' and the id "productId-now" |
| TiktokGenerator.TerminalCall | lib/tiktokGenerator.ts:48-51 | the call after the chunks is always a terminal one (`onComplete` or `onError`) |
| TiktokGenerator.Accumulate | lib/tiktokGenerator.ts:28-32 | the chunk callback's loop leaves `fullContent` equal to the concatenation of the fragments and has made one `onChunk` call per fragment, in order |
| TiktokGenerator.GenerateTiktokCopyStream | lib/tiktokGenerator.ts:8-52 | the model receives the system prompt and the `buildTiktokPrompt` text for the options, and the callbacks made are the chunk calls followed by the terminal call |
| TiktokGenerator.CallbackProtocol | lib/tiktokGenerator.ts:19-51 | one `onChunk` per fragment with text, unchanged and in stream order, then exactly one terminal call, `onComplete` exactly when nothing threw and `onError` exactly when something did; the function itself never rejects |
| TiktokGenerator.CompletedCopy | lib/tiktokGenerator.ts:28-48 | the `onComplete` copy is parsed from the concatenation of the `onChunk` arguments and carries the product id, the style id and status 'completed' |
| TiktokGenerator.ChunkArgsOfCalls | lib/tiktokGenerator.ts:29-32 | the arguments of the chunk calls give back the fragments |
| TiktokGenerator.NonErrorBecomesGenericFailure | lib/tiktokGenerator.ts:50 | a thrown value that is not an Error reaches `onError` as the message '生成失败' |
| TiktokGenerator.Settle | lib/tiktokGenerator.ts:59-69 | the promise stays pending exactly when no terminal callback is made |
| TiktokGenerator.SettleAfterChunks | lib/tiktokGenerator.ts:64-66 | chunk calls never settle the promise; it settles with the terminal call that follows them |
| TiktokGenerator.GenerateTiktokCopy | lib/tiktokGenerator.ts:55-70 | resolves exactly when the stream ends normally, with the copy parsed from the whole text, and otherwise rejects with the thrown message, or '生成失败' for a non-Error |
| TiktokRoute.Project | app/api/generate/tiktok/route.ts:71-81 | the `complete` event carries exactly the nine fields id, productId, styleId, hook, content, cta, hashtags, status and generatedAt of the copy |
| TiktokRoute.Frame | app/api/generate/tiktok/route.ts:49-100 | every frame is "data: ", then the JSON text of the event, then a blank line ("\n\n"), and nothing else |
| TiktokRoute.Controller.constructor | app/api/generate/tiktok/route.ts:43-44 | a new stream has had nothing enqueued and is open |
| TiktokRoute.Controller.Enqueue | app/api/generate/tiktok/route.ts:47-98 | enqueueing on an open stream appends exactly that text and leaves it open |
| TiktokRoute.Controller.Close | app/api/generate/tiktok/route.ts:85-106 | closing an open stream appends the close and leaves it closed |
| TiktokRoute.OpsFor | app/api/generate/tiktok/route.ts:57-94 | a chunk enqueues one `streaming` frame with the chunk verbatim; `onComplete` enqueues the `complete` frame with the projected copy and closes; `onError` enqueues the `error` frame with the message and closes |
| TiktokRoute.OpsOfAppend | app/api/generate/tiktok/route.ts:57-94 | the operations of two runs of callbacks are those of the first followed by those of the second |
| TiktokRoute.OpsOfPrefix | app/api/generate/tiktok/route.ts:57-94 | one more callback adds its own operations at the end |
| TiktokRoute.StreamingFrames | app/api/generate/tiktok/route.ts:57-64 | each chunk produces exactly one `streaming` frame carrying it verbatim, in order |
| TiktokRoute.Relay | app/api/generate/tiktok/route.ts:53-96 | applying the route's three callbacks to the generator's calls (chunks, then one terminal call) appends exactly their operations and leaves the stream closed |
| TiktokRoute.RunStream | app/api/generate/tiktok/route.ts:44-96 | the stream's `start` enqueues the `start` frame and then the relayed callbacks' operations, and ends closed |
| TiktokRoute.FrameSequence | app/api/generate/tiktok/route.ts:47-96 | the stream is the `start` frame with the product id first, one `streaming` frame per chunk with the chunk verbatim, then one terminal frame, and the close last and only there |
| TiktokRoute.TerminalFrame | app/api/generate/tiktok/route.ts:65-94 | the frame just before the close is `complete` with the parsed copy when the generator completes, and `error` with the generator's message (or '生成失败') when it fails |
| TiktokRoute.StreamOpsSplit | app/api/generate/tiktok/route.ts:47-96 | the stream's operations are the start frame, the chunk frames and the terminal call's operations, in that order |
| TiktokRoute.Post | app/api/generate/tiktok/route.ts:15-130 | a missing product answers 400 "No product provided" before the style check; a missing options or style id answers 400 "No style selected"; a body that fails to parse answers 500; otherwise the answer is the event stream of `RunStream` |
| QwenPrompts.AsPartial | lib/imageAnalysisGenerator.ts:37 | a whole product passed where a partial one is expected keeps every field the prompt reads |
| QwenPrompts.ContextBlockIffProduct | lib/qwen/prompts.ts:7-53 | the context block appears exactly when a product is given, between the head and the task description, starting with its title; without a product the prompt is the head and the task description alone |
| QwenPrompts.BuildImageAnalysisPrompt | lib/qwen/prompts.ts:7-53 | the prompt itself; its behaviour is stated by `QwenPrompts.ContextBlockIffProduct` and `QwenPrompts.ContextDefaults` |
| QwenPrompts.ContextDefaults | lib/qwen/prompts.ts:10-15 | a missing or empty name, brand or category reads '未知', material or color '未指定', audience '通用' |
| QwenPrompts.ParseImageAnalysisResponse | lib/qwen/prompts.ts:55-80 | the parsed analysis of the fence-free trimmed answer, or, when parsing throws, no points, no keywords, no colours, style '未知' and no scene |
| QwenPrompts.AnalysisFenceTransparent | lib/qwen/prompts.ts:66-67 | wrapping a trimmed backtick-free JSON body in a json fence does not change what is parsed |
| ImageAnalysisGenerator.ImageAt | lib/imageAnalysisGenerator.ts:25 | an image is found exactly for an index inside the list, and it is the image at that index |
| ImageAnalysisGenerator.AnalyzeProductImage | lib/imageAnalysisGenerator.ts:17-63 | a missing or empty image at the index, then an empty base64 string, throw their own messages with no effect; otherwise the model is asked once with the product as context, after two progress messages when `onProgress` was supplied and with no progress otherwise; a failed call rethrows its message behind "Image analysis failed: ", and a model answer after the checks is always a success (reporting 'Parsing results...' when `onProgress` was supplied), whose id is the product id, the index and `now` joined by '-', and which carries the product id, the index, the image URL, the parsed points, keywords and features, status completed, no error and `analyzedAt` equal to `now` |
| ImageAnalysisGenerator.PreChecksUnwrapped | lib/imageAnalysisGenerator.ts:27-61 | a failure has no effects exactly when its message lacks the "Image analysis failed: " prefix: the two pre-checks throw outside the try, everything after them inside it |
| AnalyzeImageRoute.Post | app/api/analyze-image/route.ts:14-80 | no key answers 500 with the configuration message; a body that fails to read answers the 500 envelope; a missing product, a missing image at the index and a missing base64 string answer 400 in that order with no model call; otherwise the analysis runs without callbacks and its result or message becomes the 200 or 500 envelope |
| AnalyzeImageRoute.RouteReachesModel | app/api/analyze-image/route.ts:29-51 | once the route's checks pass the model is always asked with the product as context, and that call is the only effect (the route passes no progress callback); a 500 then carries the analysis's prefixed message of the failed call |
| AnalyzeImageRoute.StatusCodes | app/api/analyze-image/route.ts:19-78 | every answer is 200, 400 or 500, and only a success is 200 |
| ContentBatch.ProgressCalls | lib/deepseekGenerator.ts:59-78 | progress is reported only after a product whose generation resolved, as (position, total), with strictly increasing positions, and for every such product |
| ContentBatch.GenerateBatch | lib/deepseekGenerator.ts:56-81 | the loop leaves the map that overwrites each product's id in turn with its result or its failed record, and makes exactly the progress calls above |
| ContentBatch.BatchKeys | lib/deepseekGenerator.ts:59-78 | the results map holds one entry per distinct product id and no other |
| ContentBatch.FailedRecord | lib/deepseekGenerator.ts:65-76 | the record stored for a rejected product; stated by `ContentBatch.RejectedEntry` |
| ContentBatch.Stored | lib/deepseekGenerator.ts:61-76 | the result, or the failed record when the generation rejected; stated by `ContentBatch.LastWriteWins` and `ContentBatch.RejectedEntry` |
| ContentBatch.BatchResults | lib/deepseekGenerator.ts:59-78 | the map after the loop; stated by `ContentBatch.BatchKeys`, `ContentBatch.LastWriteWins` and `ContentBatch.GenerateBatch` |
| ContentBatch.LastWriteWins | lib/mockGenerator.ts:82-101 | a product id's entry is what was stored for its last occurrence in the list |
| ContentBatch.RejectedEntry | lib/deepseekGenerator.ts:65-76 | a rejected product, not overwritten by a later one with its id, is stored under its id as failed, with its first image on both sides, no title or points, and the error's message or '生成失败' |
| ContentBatch.AllResolved | lib/deepseekGenerator.ts:62-64 | when every generation resolves, progress runs (1, n), (2, n), ..., (n, n) |
| ContentBatch.ProgressFromSuccesses | lib/deepseekGenerator.ts:62-64 | with every generation resolved there is one progress call per product |
| DeepseekGenerator.ContentMessages | lib/deepseekGenerator.ts:10-20 | the model gets one system message and one user message holding the product prompt |
| DeepseekGenerator.GenerateContent | lib/deepseekGenerator.ts:8-50 | never rejects; completed exactly when the stream resolved, then with the parsed title as title and overlay, the parsed points, the first image twice and the date; otherwise failed with empty title and points, no overlay and the error's message or '生成失败' |
| DeepseekGenerator.Outcomes | lib/deepseekGenerator.ts:62 | the outcome of each product is its own generation |
| DeepseekGenerator.GenerateBatchContent | lib/deepseekGenerator.ts:53-81 | the batch map has one entry per distinct id, each the generation of that id's last product, and progress is reported after every product in order |
| DeepseekGenerator.GenerateFromTemplate | lib/deepseekGenerator.ts:84-128 | the model is skipped exactly when the template has a truthy title template or any selling-points list; then the title is the filled template or '' and the points the filled list or [], status completed; otherwise the result is the model generation's |
| DeepseekGenerator.TemplateWithoutTitle | lib/deepseekGenerator.ts:89-117 | a template with points only gives an empty title and an empty overlay without asking the model; one with neither field behaves as no template |
| MockGenerator.MockTitles | lib/mockGenerator.ts:13-18 | there are four title patterns |
| MockGenerator.Pick | lib/mockGenerator.ts:19-35 | `Math.floor(random * n)` is an index below n |
| MockGenerator.MockTitle | lib/mockGenerator.ts:12-20 | the mock title is one of the four patterns |
| MockGenerator.MockPoints | lib/mockGenerator.ts:24-33 | there are eight point candidates |
| MockGenerator.MockSellingPoints | lib/mockGenerator.ts:23-36 | one or two points, each a candidate, taken from distinct candidates in shuffled order |
| MockGenerator.GenerateContent | lib/mockGenerator.ts:46-73 | always completed, dated, with a pattern title also used as overlay, the first image twice and one or two candidate points |
| MockGenerator.Outcomes | lib/mockGenerator.ts:85 | every mock generation resolves, completed and under its product's id |
| MockGenerator.GenerateBatchContent | lib/mockGenerator.ts:76-104 | one completed entry per distinct id, stored under its own product id, and progress after every product in order |
| MockGenerator.LastIndexOf | lib/mockGenerator.ts:86 | the last position in the list holding an id that occurs |
| MockGenerator.GenerateFromTemplate | lib/mockGenerator.ts:107-153 | the title is the filled template when one is given and a mock title otherwise, and independently the points are the filled list when one is given and mock points otherwise; completed, dated, the title as overlay |
| MockGenerator.SameFillAsDeepseek | lib/mockGenerator.ts:117-139 | with both template fields given, the mock and the model-backed generators build the same record |
| TemplateFill.TitleSteps | lib/deepseekGenerator.ts:94-100 | the title chain has six steps, each replacing a brace-delimited placeholder |
| TemplateFill.PointSteps | lib/deepseekGenerator.ts:104-109 | the selling-point chain has three steps, each replacing a brace-delimited placeholder |
| TemplateFill.FillPoints | lib/deepseekGenerator.ts:104-109 | one filled line per template line, in order, each through the point chain |
| TemplateFill.NoBraceNoMatch | lib/mockGenerator.ts:118-124 | a placeholder cannot occur in text without '{' |
| TemplateFill.OneBraceNoMatch | lib/mockGenerator.ts:131-136 | a placeholder cannot occur in text whose only '{' opens a different placeholder |
| TemplateFill.SubstituteNoBrace | lib/mockGenerator.ts:118-124 | text without '{' goes through any chain of placeholder replacements unchanged |
| TemplateFill.SubstituteAppend | lib/deepseekGenerator.ts:94-100 | running two replacement chains in turn is running their concatenation |
| TemplateFill.Substitute | lib/deepseekGenerator.ts:94-100 | a chain of first-occurrence replacements; stated by `TemplateFill.SubstituteAppend`, `TemplateFill.SubstituteNoMatch` and `TemplateFill.BrandReplacedOnce` |
| TemplateFill.FillTitle | lib/deepseekGenerator.ts:93-100 | the filled title; stated by `TemplateFill.BrandReplacedOnce` and `TemplateFill.TitleDefaults` |
| TemplateFill.PlainTemplates | lib/deepseekGenerator.ts:93-110 | templates without placeholders are returned as written, title and every point |
| TemplateFill.BrandReplacedOnce | lib/deepseekGenerator.ts:95 | only the first "{brand}" is replaced, by the brand verbatim; later ones reach the next steps untouched |
| TemplateFill.TitleDefaults | lib/deepseekGenerator.ts:98-100 | a missing or empty material, color or audience fills the title as '' would |
| TemplateFill.PointDefaults | lib/deepseekGenerator.ts:107-108 | in the points a missing material reads '精选材料' and a missing audience '多场景' |
| TemplateFill.PointsKeepOtherPlaceholders | lib/deepseekGenerator.ts:104-109 | the point chain leaves "{name}", "{category}" and "{color}" in place |
| TemplateFill.SubstituteNoMatch | lib/deepseekGenerator.ts:94-100 | a chain none of whose placeholders occurs leaves the text unchanged |
| Base.FindIndex | lib/storage.ts:30 | the first position holding the id, and none exactly when no element holds it |
| Base.Find | lib/storage.ts:41 | an element is found exactly when some element holds the id, and it is the one at the first such position |
| Storage.Store.constructor | lib/storage.ts:5-7 | a store over what its storage key holds, in the browser or on the server |
| Storage.Store.GetAll | lib/storage.ts:8-18 | on the server, or with nothing stored, the list is empty |
| Storage.Store.Save | lib/storage.ts:19-22 | in the browser the key holds exactly the list written and reads back as it; on the server nothing changes |
| Storage.Store.Add | lib/storage.ts:23-27 | the stored list becomes the old one with the element appended, duplicates kept; nothing changes on the server |
| Storage.Store.Update | lib/storage.ts:28-35 | an unknown id writes nothing; otherwise only the first element with the id is replaced by its merge with the updates |
| Storage.Store.Delete | lib/storage.ts:36-39 | the stored list becomes the old one without any element holding the id, order kept, written even when nothing matched |
| Storage.Store.GetById | lib/storage.ts:40-42 | the first stored element with the id, or none |
| Storage.UpdateOnlyFirst | lib/storage.ts:30-32 | an update keeps the length and every position but the first match, later duplicates included |
| Storage.DeleteRemovesAll | lib/storage.ts:37 | after a delete no element holds the id and every element without it remains |
| Storage.FindAfterAdd | lib/storage.ts:23-42 | after an add the lookup of the new element's id finds an earlier element with that id if any, else the new one |
| Base.FindIndexAppend | lib/storage.ts:25-30 | appending an element with the id leaves an earlier first match in place and otherwise puts it at the old length |
| Base.TableLookup | lib/qwen-image/prompts.ts:44-55 | a keyed table lookup finds a value exactly when some entry has the key, and the value is that entry's; an absent key reads `undefined` |
| Storage.TemplatePatchFields | lib/storage.ts:32 | the spread merge keeps a template under an empty patch, becomes the patch when it has every key, keeps each absent key's field and lets a present undefined key clear the field |
| Storage.ApplyTemplatePatch | lib/storage.ts:32 | the spread merge; stated by `Storage.TemplatePatchFields` |
| Storage.TemplateStore | lib/storage.ts:7-43 | the template store keys by template id and merges by the template spread, over the 'templates' contents |
| Storage.MaterialStore | lib/storage.ts:46-82 | the material store keys by the material's own id and merges by the material spread, over the 'materials' contents |
| TemplateLibrary.FilterShowsExactly | components/template-library/TemplateLibraryPage.tsx:35-41 | the list shows exactly the stored templates whose type matches the filter ('all' matches every type) and whose name or some tag contains the search text ignoring case (an empty search matches all), in stored order |
| TemplateLibrary.FilteredTemplates | components/template-library/TemplateLibraryPage.tsx:35-41 | the filtered list; what it holds is stated by `TemplateLibrary.FilterShowsExactly` and `TemplateLibrary.NoFilterShowsAll` |
| TemplateLibrary.NoFilterShowsAll | components/template-library/TemplateLibraryPage.tsx:36-37 | with the filter at 'all' and no search text every template is shown |
| TemplateLibrary.SearchIgnoresCase | components/template-library/TemplateLibraryPage.tsx:37-39 | for every template, filter and search text: two search texts that lower-case alike show the same templates, and a search text shows what its lower-cased form shows |
| TemplateLibrary.ParseTags | components/template-library/TemplateLibraryPage.tsx:50 | every saved tag is non-empty, holds no comma and is trimmed |
| TemplateLibrary.ParseLines | components/template-library/TemplateLibraryPage.tsx:54-56 | an empty text gives no list; otherwise its non-empty lines, untrimmed, each without a line break |
| TemplateLibrary.HandleSave | components/template-library/TemplateLibraryPage.tsx:43-70 | a blank name saves nothing; with a template being edited it updates that id, keeping its creation date and its use count or 0; otherwise it adds a template with the new id, the current date and use count 0; the record holds the name as typed, the type, the parsed tags, the category and title template or none when empty, no main-image template and the parsed point lines |
| TemplateLibrary.EditThenSave | components/template-library/TemplateLibraryPage.tsx:43-83 | opening a template in the editor and saving it unchanged gives it back, except for the dropped main-image template, a missing or zero use count read as 0, and an empty point list read as none |
| TemplateLibrary.HandleEdit | components/template-library/TemplateLibraryPage.tsx:72-83 | the editor form for a template; its round trip through saving is stated by `TemplateLibrary.EditThenSave` |
| TemplateLibrary.TagsRoundTrip | components/template-library/TemplateLibraryPage.tsx:50-77 | clean tags shown joined by ", " parse back to the same tags |
| TemplateLibrary.JoinPadded | components/template-library/TemplateLibraryPage.tsx:77 | joining space-prefixed tags by "," is a space followed by the ", " join of the tags |
| TemplateLibrary.JoinCommaSpace | components/template-library/TemplateLibraryPage.tsx:77 | the ", " join of the tags is the "," join of their spaced pieces |
| TemplateLibrary.LinesRoundTrip | components/template-library/TemplateLibraryPage.tsx:54-80 | non-empty point lines shown joined by line breaks parse back to themselves, and no lines to no list |
| HomePage.UpdatedProduct | app/page.tsx:69-82 | the updated product keeps the edited product's id and creation date and takes every other field from the form, exactly as a new product with that id and date would |
| HomePage.ReplaceById | app/page.tsx:84-86 | the list keeps its length and order; every product with the id, and only those, becomes the updated product |
| HomePage.PendingResults | app/page.tsx:109-122 | every product has a placeholder, every placeholder belongs to a listed product under its own id, pending, with an empty title |
| HomePage.PendingRecord | app/page.tsx:112-120 | the placeholder of one product; stated by `HomePage.PendingResults` |
| HomePage.Placeholders | app/page.tsx:109-122 | the loop builds exactly the placeholder map of the product list |
| HomePage.Home.constructor | app/page.tsx:15-20 | the page starts with no products, no results, nothing being edited, not generating and a (0, 0) count |
| HomePage.Home.AddProduct | app/page.tsx:24-54 | the new product is appended after the existing ones; the material library gains it, last, only when the form's `saveToLibrary` is true in the browser, and is untouched otherwise; results, the edited product, the generating flag and the count stay |
| HomePage.NewProduct | app/page.tsx:25-45 | the product a submitted form becomes; stated by `HomePage.Home.AddProduct` |
| HomePage.Home.EditProduct | app/page.tsx:57-60 | the product becomes the one being edited; products, results, the generating flag and the count stay |
| HomePage.Home.UpdateProduct | app/page.tsx:63-89 | with nothing being edited nothing changes; otherwise every product with the edited id is replaced by the updated product, others stay in place, and editing ends; results, the generating flag and the count stay |
| HomePage.Home.DeleteProduct | app/page.tsx:92-99 | every product with the id is dropped, the others kept in order, and only that id's result is removed; the edited product, the generating flag and the count stay |
| HomePage.Home.Generate | app/page.tsx:102-139 | with no products nothing happens, the count included; otherwise the results are first the placeholder map, then the batch map with one entry per distinct product id, the count ends at (n, n) and generation is over; the products and the edited product stay |
| HomePage.Home.Regenerate | app/page.tsx:142-168 | an unknown product changes nothing; otherwise only that key changes, first to its old entry marked generating, then to the mock generator's result for the first product with the id; products, the edited product, the generating flag and the count stay |
| HomePage.Home.EditResult | app/page.tsx:171-184 | an existing entry gets the new title and points and keeps every other field; a missing entry is not created; no other entry changes; products, the edited product, the generating flag and the count stay |
| HomePage.Home.Export | app/page.tsx:187-222 | data is exported exactly when the product exists and its result is completed; it then carries the first matching product's name, category, brand, material, size, color and audience, with that result's title and points |
| HomePage.Home.ExportAll | app/page.tsx:225-250 | one entry per product, in list order, with its name, category and brand, and its title and points exactly when its result is completed |
| ImageUploader.SliceEnd | components/batch-generate/ImageUploader.tsx:27 | where `slice(0, end)` stops: never past the length, and a negative end counts back from it |
| ImageUploader.DroppedImages | components/batch-generate/ImageUploader.tsx:17-27 | the new list is the front of the old images followed by the dropped files, cut where the slice stops |
| ImageUploader.OnDrop | components/batch-generate/ImageUploader.tsx:25-35 | the list handed on is the cut list and there is one preview per image, its object URL |
| ImageUploader.DropBounds | components/batch-generate/ImageUploader.tsx:27 | with a maximum that is not negative the list never exceeds it, images already within it stay in front, and everything is kept when it all fits |
| ImageUploader.DropTwice | components/batch-generate/ImageUploader.tsx:27 | two drops in a row keep what one drop of both batches keeps |
| ImageUploader.RemoveAt | components/batch-generate/ImageUploader.tsx:45 | an index inside the list drops exactly that element; any other index keeps the list |
| ImageUploader.RemoveImage | components/batch-generate/ImageUploader.tsx:44-50 | images and previews both lose the element at the index |
| ImageUploader.RemoveExactlyOne | components/batch-generate/ImageUploader.tsx:45-48 | a removal in range leaves one fewer element, those before the index in place, those after shifted by one, and the same multiset but the removed one |
| ImageUploader.PreviewsAligned | components/batch-generate/ImageUploader.tsx:31-50 | a preview list matching its images still matches after a removal at any index |
| ResultCard.StartEdit | components/batch-generate/ResultCard.tsx:102-109 | the editor opens only for a completed result outside editing, keeping the edited text |
| ResultCard.SaveEdit | components/batch-generate/ResultCard.tsx:31-42 | the edit sent holds the result's product id, the title as typed and the non-blank trimmed lines of the points in order; the editor closes |
| ResultCard.CancelEdit | components/batch-generate/ResultCard.tsx:44-173 | cancelling closes the editor and shows the result's own title and points again, so the actions return exactly for a completed result |
| ResultCard.SaveUnchanged | components/batch-generate/ResultCard.tsx:26-42 | opening and saving without typing sends a completed result's clean title and points back unchanged |
| ResultCard.SaveIdempotent | components/batch-generate/ResultCard.tsx:32-46 | the points a save sends, shown again, are sent again unchanged |
| ResultCard.SaveKeepsOrder | components/batch-generate/ResultCard.tsx:32-35 | the points of the lines above a line break come before those below it |
| ProductForm.EmptyForm | components/batch-generate/ProductForm.tsx:19-63 | the blank form has no name, category, brand, images or links text, no truthy optional field, and `saveToLibrary` false |
| ProductForm.ParseLinks | components/batch-generate/ProductForm.tsx:39-46 | the links are the non-blank trimmed lines of the text, and undefined exactly when there are none |
| ProductForm.SubmitPassesFields | components/batch-generate/ProductForm.tsx:35-64 | a submit hands every field over as typed except the links, which are parsed from the text, clean and never an empty list; the form is then blank |
| ProductForm.HandleSubmit | components/batch-generate/ProductForm.tsx:35-64 | the submitted data and the blank form; stated by `ProductForm.SubmitPassesFields` and `ProductForm.EnabledSubmit` |
| ProductForm.LinksRoundTrip | components/batch-generate/ProductForm.tsx:39-46 | clean links typed one per line arrive as typed; no links arrive as undefined |
| ProductForm.EnabledSubmit | components/batch-generate/ProductForm.tsx:200 | the blank form cannot be submitted; a product added from an enabled form has a name, a category, a brand and a first image |
| ProductForm.SubmitEnabled | components/batch-generate/ProductForm.tsx:200 | the button's enabled condition; stated by `ProductForm.EnabledSubmit` |
| TiktokResultCard.StyleOf | components/tiktok-copy/TikTokResultCard.tsx:15 | the style shown is one of the TikTok styles with the copy's id, and there is none exactly when no style has that id |
| TiktokResultCard.Hashed | components/tiktok-copy/TikTokResultCard.tsx:19 | each tag behind a '#', in order |
| TiktokResultCard.TextLines | components/tiktok-copy/TikTokResultCard.tsx:17-21 | the copied text has seven lines with hashtags and five without |
| TiktokResultCard.FullTextJoins | components/tiktok-copy/TikTokResultCard.tsx:17-21 | the copied text is hook, content and call to action separated by blank lines, then a blank line and the hashtag line only when there are hashtags |
| TiktokResultCard.FullText | components/tiktok-copy/TikTokResultCard.tsx:17-21 | the copied text; stated by `TiktokResultCard.FullTextJoins` and `TiktokResultCard.FullTextLines` |
| TiktokResultCard.FullTextLines | components/tiktok-copy/TikTokResultCard.tsx:17-21 | when no part holds a line break the copied text splits back into exactly those lines |
| TiktokResultCard.HashtagLineSeparators | components/tiktok-copy/TikTokResultCard.tsx:19 | the hashtag line adds no character besides '#' and ' ' |
| TiktokResultCard.HashtagLine | components/tiktok-copy/TikTokResultCard.tsx:19 | the hashtag line; stated by `TiktokResultCard.HashtagLineSeparators` and `TiktokResultCard.HashtagsRecoverable` |
| TiktokResultCard.HashtagsRecoverable | components/tiktok-copy/TikTokResultCard.tsx:19 | tags without spaces come back from the hashtag line, each behind its '#', in order |

Proof helpers carry no row of their own: `Base.TrimEndOfSuffix`, `Base.PointwiseAppend`, `Base.TrimAllAppend`, `Base.TrimAllIdentity`, `Base.Signed`, `Base.NegativeDigits`, `TiktokRoute.OpsAroundMiddle`, `TiktokRoute.ResponseHeaders`, `ContentBatch.Consecutive`, `ContentBatch.ProgressIndex`, `ContentBatch.IncreasingFloor`, `ContentBatch.IncreasingCeiling`, `TemplateLibrary.Spaced`, `TemplateLibrary.Padded`, `TemplateLibrary.TrimLeadingSpace`, `ImageUploader.Removed`, `TiktokResultCard.JoinCons`, `Base.SliceOfSuffix`, `Base.ToLowerIdempotent`, `Base.IncludesAt`, `Base.PartsIndex`, `Base.SliceOfFront`, `QwenImageClient.MulMonotone` and `TiktokRoute.AppendAssoc`. `Base.DigitChar` and `Base.DigitsValue` (the value a digit string spells, the reference that `Base.NatToStringValue` and `Base.IntToStringValue` compare against) are definitions without a row.

## Left out

- Network and SDK calls (`fetch`, the OpenAI client, the Qwen HTTP endpoints) are not modelled; their answers are parameters. `lib/qwen/client.ts` (the vision-model SDK wrapper) is not part of this model: the analysis call is recorded by its image and prompt context.
- JSON grammar is not modelled: `JSON.parse` is a given partial function whose result shape is taken on trust, and `JSON.stringify` is a given function.
- `TextEncoder` and the `ReadableStream` machinery are not modelled; the event stream is the sequence of frames enqueued and whether it was closed.
- Timers are counted, not timed: `sleep`, `delay` and `setTimeout` appear only as sleep effects or not at all, and the mock generator's random delay is dropped.
- `generationTime` in the image route is floating-point seconds and is not modelled.
- All reads of `Date.now()` and `new Date()` within one call are the same `now`.
- Randomness is not modelled: `generateId` is a given string, the mock title choice is a given draw, and the comparator-based shuffle is any permutation of the eight candidates (JavaScript's sort does not guarantee that order).
- Unicode is handled by a fixed list: `trim` uses ECMAScript's white-space and line-terminator code points, and `toLowerCase` folds ASCII letters only. UTF-16 lengths are character counts.
- The insertion order of JavaScript `Map` results is not modelled: results are Dafny maps, so the order in which the page iterates them is not captured.
- The `catch` inside the short-video stream's `start` is not modelled. It is reachable only when a callback or the encoder throws, and both are given as non-throwing; the route's own `catch` for an unreadable body is modelled.
- Storage reviving date strings as `Date` objects is not modelled: dates are integers and survive a round trip unchanged.
- `app/api/generate/route.ts` and every presentation component (headers, buttons, selectors, progress bars, downloads, clipboard, `alert`, `confirm`) are not part of this model.
- `handleDelete` and `loadTemplates` of the template library page are not given their own members: they call `Storage.Store.Delete` after a confirmation dialog, and `Storage.Store.GetAll`.
- `getScenarioPrompt`, `getStyleModifiers` and the prompt tables are plain functions and tables. The long prompt texts are written as their lines joined by "\n".
- `Storage.MaterialPatch` covers only a material's own bookkeeping fields (`usedCount`, `lastUsedAt`); a patch of the product fields inside a material is not modelled.
- `HomePage.Home.Regenerate`: when the product exists but has no result entry, the source spreads `undefined` and keeps only the status; the model writes a blank record with status generating in that case.
- `HomePage.Home.Generate` and `HomePage.Home.Regenerate` model the page's `setResults` calls as direct assignments. React's batching and re-rendering are not modelled, and the intermediate map is returned so that it can be stated.
- `HomePage.Home.Generate` and `HomePage.Home.Regenerate` each run as one uninterrupted step. In the page, other handlers can run while either awaits its generation, because the result preview stays usable while the placeholders show. So an edit or regeneration made during a batch is overwritten by the batch's final `setResults(generated)`, and a product deleted while its regeneration awaits gets its entry back from the functional update. This interleaving, and the lost or resurrected entries it causes, is not modelled.
- The `console.error` and `console.log` calls in the generators' and the page handlers' catch blocks are dropped. `ResultCard.SaveEdit` always emits the edit, where the source calls an optional `onEdit?.(…)`; every call site supplies it, so nothing observable changes.
- `HomePage.Home.AddProduct` and `HomePage.Home.UpdateProduct` take the form's images as already converted by `URL.createObjectURL`.
- `DeepseekPrompts.StripFences`: its own contract states only that the text does not grow. What the pattern deletes is stated by `StripFencesNoBacktick`, `StripFencesPrefix`, `FencedBody` and `LeadingNewlineKeepsTag`.
- A creation or status response whose body is not valid JSON (`response.json()` rejecting, lib/qwen-image/client.ts:127 and :152) is not modelled: both bodies are given as parsed values.
- `Base.ToLower`: folds ASCII letters only, because case mapping beyond ASCII is not modelled.
