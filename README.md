# wrench-buddy image-editing core, modelled in Dafny

wrench-buddy is a Next.js app that edits photos with generative models. This
project models its core:

- the two server routes that talk to the models:
  - `POST /api/mixer-edit` takes up to five images, a prompt and a model id.
    It routes the request to FAL's `nano-banana/edit` queue or to OpenRouter's
    Gemini chat-completion model, and answers with one unified
    `{success, data | error}` envelope.
  - `POST /api/openrouter-edit` takes one image and a prompt and sends them to
    OpenRouter.
- the client-side state:
  - the in-memory image store;
  - the saved-images list in browser storage, including its blob-URL clean-up;
  - the multi-image drop area;
  - the saved-image card;
  - the chat input box.

Layout, one module per file:

| file | module | what it holds |
|---|---|---|
| `js_text.dfy` | `JsText` | `Option` and the JavaScript string semantics the code relies on: truthiness, `||`, `trim` (with JavaScript's whitespace set), `startsWith`, `includes`, `split(' ')`/`join`, `slice`, ASCII `toLowerCase`, `replace(/_/g, ' ')` |
| `envelope.dfy` | `Envelope` | the `ApiError` record, its `type` values, and one `Thrown` record for whatever a `catch` can receive: an `Error` message, FAL's `status` and `body`, the OpenAI SDK's `response` |
| `chat_completion.dfy` | `ChatCompletion` | the chat-completion shapes and the logic both OpenRouter routes share: the image normaliser, the finish-reason check and the classifier for thrown errors. A `RouteVariant` parameter selects the branches in which the two copies differ |
| `keyed_lists.dfy` | `KeyedLists` | `filter`, `find` and `map` by `id` |
| `image_types.dfy` | `ImageTypes` | `EditedImage`, `StoredImageData`, partial updates (object spread) and the save-time conversion |
| `image_store.dfy` | `Store` | the store as a class with `currentImage` and `editedImages` fields |
| `local_storage.dfy` | `LocalStorage` | the storage slot and the log of revoked object URLs as a class |
| `many_dropzone.dfy` | `ManyDropzone` | the drop area's list operations and what it shows |
| `image_card.dfy` | `ImageCard` | prompt truncation, the "show more" rule, the displayed URL |
| `chat_input.dfy` | `ChatInput` | the input box as a class with its text and the log of sent messages |
| `mixer_edit.dfy` | `MixerEdit` | the multi-vendor route |
| `openrouter_edit.dfy` | `OpenRouterEdit` | the single-image route |

How the model is built:

- The vendors (`fal.subscribe`, `openai.chat.completions.create`) are function
  parameters. Each maps the request the route sends to the result or the
  thrown value it gets back.
- Each route's `Post` method also returns the request it sent, if any. This
  makes "no vendor is called when the input is rejected" a provable
  statement.
- Each step-by-step method is proved equal to a declarative function. That
  function states each field as "the last branch that writes it wins", and
  the properties are proved about it.
- Object URLs and random ids are inputs. Revoked URLs are recorded in a log.
- A failed `localStorage` write is a boolean input.

## Model

| member | source | states |
|---|---|---|
| JsText.Or | src/app/api/mixer-edit/route.ts:424-426 | `a \|\| b` on strings: `a` when non-empty, otherwise `b` |
| JsText.Render | src/app/api/mixer-edit/route.ts:299 | a missing value renders as `undefined` in a template literal; a present one renders as itself |
| JsText.TrimEmptyIffBlank | src/components/modules/chat-input.tsx:46 | `trim()` gives `""` exactly when every character is JavaScript whitespace |
| JsText.TrimIsInnerSlice | src/components/modules/chat-input.tsx:20 | the trimmed text is a contiguous piece of the input |
| JsText.TrimEndsNotSpace | src/components/modules/chat-input.tsx:20 | a non-empty trimmed text has no whitespace at either end |
| JsText.TrimIdempotent | src/components/modules/chat-input.tsx:20-22 | trimming an already trimmed text changes nothing |
| JsText.Trim | src/components/modules/chat-input.tsx:20 | `trim()` drops only whitespace: every character before the kept part and every character after it is whitespace |
| JsText.ToLower | src/app/api/openrouter-edit/route.ts:181 | `toLowerCase()` keeps the length and lower-cases each character in place |
| JsText.UnderscoresToSpaces | src/app/api/openrouter-edit/route.ts:181 | `replace(/_/g, ' ')` keeps the length, turns each `_` into a space and leaves every other character alone |
| JsText.StartsWithContains | src/app/api/mixer-edit/route.ts:516-518 | a text that starts with `p` also includes `p` |
| JsText.Split | src/components/modules/image-card.tsx:21-22 | `split(c)` always gives at least one piece, and no piece contains `c` |
| JsText.JoinSplit | src/components/modules/image-card.tsx:21 | joining the pieces of `split(c)` with `c` gives back the original text |
| JsText.JoinPrefix | src/components/modules/image-card.tsx:21 | joining a leading run of the pieces gives a prefix of joining all of them |
| JsText.JoinAppend | src/app/api/mixer-edit/route.ts:167 | joining one more piece appends the separator and that piece |
| JsText.SplitCount | src/components/modules/image-card.tsx:22 | `split(c)` gives exactly one piece more than there are occurrences of `c` |
| JsText.Take | src/components/modules/image-card.tsx:21 | `slice(0, n)` keeps the first `min(n, length)` elements |
| ChatCompletion.FormatImage | src/app/api/mixer-edit/route.ts:314-328 | the URL is the first non-empty of `image_url.url`, `url` and the base64 payload, the last as a PNG data URL, and `null` when none is set; empty `b64_json` and `revised_prompt` become `null` |
| ChatCompletion.ResponseImages | src/app/api/mixer-edit/route.ts:308-330 | `images` is `null` exactly when the message has none; otherwise every entry is normalised, in order, and none is dropped |
| ChatCompletion.EmptyImageListStillCountsAsImages | src/app/api/mixer-edit/route.ts:309-344 | an empty `images` array is truthy, so `images || null` keeps it as `[]` rather than `null` |
| MixerEdit.EmptyImageListHasImages | src/app/api/mixer-edit/route.ts:309-344 | a completion that stopped with an empty `images` array succeeds with `images: []` and `hasImages: true` |
| OpenRouterEdit.EmptyImageListHasImages | src/app/api/openrouter-edit/route.ts:220-260 | a completion that stopped with an empty `images` array succeeds with `images: []` and `hasImages: true` |
| ChatCompletion.ContentFilterMessage | src/app/api/openrouter-edit/route.ts:178-182 | on the single-image route a content-filter message is the native reason with each `_` turned into a space and every other character lower-cased, position by position; without a native reason it is `content is prohibited` |
| ChatCompletion.FinishReasonFailure | src/app/api/mixer-edit/route.ts:270-305 | every finish reason except `stop` is a failure, a missing one included. Its kind is `FinishKind`, and title, code and message follow that kind. It is 422 and not retryable exactly for `content_filter`, 500 and retryable otherwise. The details are `Model finish reason: <reason>`; on the single-image route a truthy native reason adds ` (<native>)` |
| ChatCompletion.FinishKind | src/app/api/mixer-edit/route.ts:276-291 | the kind is `content_filter` exactly for that reason and `length_limit` exactly for `length`. It is `tool_call` exactly on the single-image route for `function_call` or `tool_calls`, and `model` otherwise |
| ChatCompletion.ContentFilterFailure | src/app/api/openrouter-edit/route.ts:178-184 | `content_filter` is a 422, non-retryable `Content Prohibited`/`CONTENT_FILTER`. The multi-image route gives its fixed message, the single-image route the native-reason message |
| ChatCompletion.LengthFailure | src/app/api/mixer-edit/route.ts:286-290 | `length` is a retryable 500 `Response Too Long`/`LENGTH_LIMIT` with the truncation message |
| ChatCompletion.ToolCallFailure | src/app/api/openrouter-edit/route.ts:190-195 | on the single-image route `function_call` and `tool_calls` are a retryable 500 `Tool Call Issue`/`TOOL_CALL_ERROR` |
| ChatCompletion.OtherReasonFailure | src/app/api/mixer-edit/route.ts:276-279 | any other reason, a missing one included, is a retryable 500 `Processing Issue`/`MODEL_ISSUE` with the generic message |
| ChatCompletion.CheckFinishReason | src/app/api/openrouter-edit/route.ts:171-216 | the step-by-step title/message/code/type reassignment gives exactly the failure above, for either route |
| ChatCompletion.TextRule | src/app/api/mixer-edit/route.ts:362-386 | a rule fires exactly when one of the four phrases occurs, checked in order: `API key` is a 401 authentication error `INVALID_API_KEY`; `timeout` or `ECONNRESET` a retryable 503 network error `NETWORK_TIMEOUT`; `rate limit` a retryable 429 `RATE_LIMIT` |
| ChatCompletion.ExceptionError | src/app/api/openrouter-edit/route.ts:268-406 | a status the switch knows decides the kind, title and retry flag; without one, the message stage decides them, and without a response status its HTTP status stands. A non-empty vendor message or code overrides; otherwise message and details come from the message stage and the code from the status rule or the message stage. A thrown non-error with no status is `unknown`/500/retryable. The multi-image route never produces `authorization` or `service` |
| ChatCompletion.ClassifyFinish | src/app/api/mixer-edit/route.ts:276-291 | the defaults followed by the `content_filter`/`length` overwrites leave the kind `FinishKind` chooses, with that kind's title, message and code |
| ChatCompletion.StatusRule | src/app/api/mixer-edit/route.ts:392-420 | the status switch: 400 is `Invalid Request`/`BAD_REQUEST`, 401 `Authentication Failed`/`UNAUTHORIZED`, both not retryable; 429 `RATE_LIMIT` and 500 `INTERNAL_SERVER_ERROR` are retryable. Only the single-image route adds 403 `Access Denied`/`FORBIDDEN` and retryable 503 `SERVICE_UNAVAILABLE`. Each rule keeps the status |
| ChatCompletion.MessageStage | src/app/api/mixer-edit/route.ts:352-386 | without an `Error` the defaults stand. With one, message and details are its message, and the first matching text rule gives kind, title, code, retry flag and status. With no rule matching it is a retryable 500 `Processing Error`/`UNKNOWN_ERROR` |
| ChatCompletion.ApplyErrorMessage | src/app/api/mixer-edit/route.ts:362-386 | the `instanceof Error` block's overwrites give exactly `MessageStage` |
| ChatCompletion.ClassifyException | src/app/api/mixer-edit/route.ts:348-434 | the `catch` block's defaults and field overwrites give exactly `ExceptionError` |
| ChatCompletion.StatusOverridesText | src/app/api/mixer-edit/route.ts:388-420 | with status 400, 401, 429 or 500 the status decides the kind and the HTTP status, whatever the message text says |
| KeyedLists.Without | src/lib/store/image-store.ts:20 | `filter(x => x.id !== id)`: nothing left has the id, survivors come from the input, and every entry with another id survives |
| KeyedLists.WithoutAppend | src/lib/storage/localStorage.ts:23 | filtering a concatenation filters each part, so order is kept |
| KeyedLists.WithoutAbsent | src/lib/store/image-store.ts:20 | filtering by an id nobody has changes nothing |
| KeyedLists.WithoutIdempotent | src/lib/storage/localStorage.ts:43 | filtering twice by the same id is filtering once |
| KeyedLists.WithoutCountsZero | src/lib/storage/localStorage.ts:43 | after the filter, no entry has the id |
| KeyedLists.PrependUnique | src/lib/storage/localStorage.ts:23 | putting a record in front of the rest, after filtering its id out of the rest, leaves exactly one entry with that id, first |
| KeyedLists.FindIndex | src/components/modules/image-many-dropzone.tsx:40 | `find` stops at the first entry with the id, and finds nothing exactly when no entry has it |
| KeyedLists.Find | src/lib/storage/localStorage.ts:47 | the found record is the entry at `FindIndex`, the first with the id; nothing is found exactly when no entry has it |
| KeyedLists.UpdateWhere | src/lib/store/image-store.ts:27-29 | `map` keeps the length, applies the update to every entry with the id, and leaves every other entry as it was |
| KeyedLists.UpdateAbsent | src/lib/storage/localStorage.ts:68-70 | updating by an id nobody has changes nothing |
| ImageTypes.EditedPatchLaws | src/lib/store/image-store.ts:28-31 | spreading the same partial update twice equals spreading it once; spreading `{}` changes nothing |
| ImageTypes.ApplyEditedPatch | src/lib/store/image-store.ts:28-31 | `{ ...img, ...updates }`: spreading `{}` changes nothing, and the image keeps its id unless the update names one |
| ImageTypes.EditedPatchesCompose | src/lib/store/image-store.ts:28-31 | two successive updates equal one update that spreads both, the later one winning |
| ImageTypes.ApplyStoredPatch | src/lib/storage/localStorage.ts:68-70 | `{ ...img, ...updates }` on a stored record: spreading `{}` changes nothing, and the record keeps its id unless the update names one |
| ImageTypes.StoredPatchLaws | src/lib/storage/localStorage.ts:68-70 | a stored record takes the same update twice as once, and two updates as one spread of both, the later one winning |
| ImageTypes.ToStored | src/lib/storage/localStorage.ts:9-21 | the stored record keeps the id, prompt and URLs, takes the file's name and size, stores the date as its ISO text, and turns a missing `editedUrls` into `[]` |
| Store.UpdatedCurrent | src/lib/store/image-store.ts:30-32 | the current image takes the update only when its id matches; otherwise, or when there is none, it is unchanged |
| Store.RemovedCurrent | src/lib/store/image-store.ts:21 | the current image is cleared exactly when it has the removed id |
| Store.ImageStore.constructor | src/lib/store/image-store.ts:5-6 | the store starts with no current image and no edited images |
| Store.ImageStore.SetCurrentImage | src/lib/store/image-store.ts:8-10 | replaces the current image and leaves the list alone |
| Store.ImageStore.AddEditedImage | src/lib/store/image-store.ts:12-16 | the new image goes first and the old list follows unchanged |
| Store.ImageStore.RemoveEditedImage | src/lib/store/image-store.ts:18-23 | every entry with the id is removed, the rest keep their order, and the current image is cleared when it has the id |
| Store.ImageStore.UpdateImage | src/lib/store/image-store.ts:25-34 | entries with the id, and the current image when it has the id, take the update; the length is kept |
| Store.RemoveAfterAdd | src/lib/store/image-store.ts:12-23 | removing an image's id right after adding it leaves what removing it from the old list leaves |
| LocalStorage.BlobUrlsExact | src/lib/storage/localStorage.ts:48-59 | exactly the `blob:` URLs among the candidates are selected for release |
| LocalStorage.Records | src/lib/storage/localStorage.ts:30-38 | the stored list is read back as it is; a missing or unreadable entry reads as `[]` |
| LocalStorage.ImageStorage.GetAllEditedImages | src/lib/storage/localStorage.ts:30-38 | returns the stored list, or `[]` when nothing readable is stored |
| LocalStorage.ImageStorage.SaveEditedImage | src/lib/storage/localStorage.ts:6-28 | the new record goes first and older records with its id are filtered out of the rest; a failed write leaves storage as it was; no URL is released |
| LocalStorage.ImageStorage.RevokeIfBlob | src/lib/storage/localStorage.ts:48-50 | a URL is released exactly when it starts with `blob:` |
| LocalStorage.ImageStorage.RevokeEach | src/lib/storage/localStorage.ts:55-59 | the `forEach` releases the list's `blob:` URLs in order and nothing else |
| LocalStorage.ImageStorage.RevokeRecord | src/lib/storage/localStorage.ts:47-59 | the record's original, edited and multiple edited URLs are released in that order, `blob:` ones only |
| LocalStorage.ImageStorage.RemoveEditedImage | src/lib/storage/localStorage.ts:40-63 | every record with the id is filtered out. Then the first such record's blob URLs are released, and none when no record has the id. A failed write changes nothing and releases nothing |
| LocalStorage.ImageStorage.UpdateEditedImage | src/lib/storage/localStorage.ts:65-75 | records with the id take the update and the list keeps its length and order; a failed write changes nothing |
| LocalStorage.ImageStorage.ClearAllImages | src/lib/storage/localStorage.ts:77-100 | every record's blob URLs are released, record by record, and then the entry is removed |
| LocalStorage.SaveKeepsOneCopy | src/lib/storage/localStorage.ts:23 | after a save the saved id is first and appears exactly once |
| LocalStorage.OnlyBlobsReleased | src/lib/storage/localStorage.ts:48-59 | every released URL starts with `blob:` and belongs to the removed record |
| ManyDropzone.SliceTo | src/components/modules/image-many-dropzone.tsx:28 | `slice(0, end)` takes a prefix; a negative end counts back from the end of the list |
| ManyDropzone.OnDrop | src/components/modules/image-many-dropzone.tsx:26-37 | the current images stay first. After them come accepted files, in order, each with its own minted URL and id. When the list is within `maxImages` it gets as many as there are free slots and never grows beyond `maxImages`. An over-full list, `n` images past `maxImages`, still takes all but the last `n` accepted files (none when fewer were dropped), because a negative `slice` end counts back from the end of the accepted files; the disabled drop area normally prevents that drop |
| ManyDropzone.FullAreaIgnoresDrop | src/components/modules/image-many-dropzone.tsx:27-28 | when the area is full, a drop adds nothing |
| ManyDropzone.EmptyDropKeepsList | src/components/modules/image-many-dropzone.tsx:26-37 | dropping no files hands back the current list |
| ManyDropzone.RemoveImage | src/components/modules/image-many-dropzone.tsx:39-46 | every image with the id leaves the list; the URL of the first one with it is released, and nothing is released when none has it |
| ManyDropzone.RemoveMissingId | src/components/modules/image-many-dropzone.tsx:39-46 | removing an id nobody has hands back the same list and releases nothing |
| ManyDropzone.ClearAll | src/components/modules/image-many-dropzone.tsx:145-148 | "Clear all images" releases every image's URL, in order, and hands back `[]` |
| ManyDropzone.ViewOf | src/components/modules/image-many-dropzone.tsx:58-130 | the upload prompt shows exactly when the list is empty; in the grid, the "add more" tile shows exactly when the area is not full, and its count plus the list's length is `maxImages` |
| ManyDropzone.Disabled | src/components/modules/image-many-dropzone.tsx:55 | the drop area is disabled (list length at least `maxImages`) exactly when dropping any single file would add nothing to the list |
| ManyDropzone.SingleFileDrop | src/components/modules/image-many-dropzone.tsx:26-37 | a one-file drop adds that file unless the list already holds `maxImages` images or more |
| ManyDropzone.DisabledIffDropAddsNothing | src/components/modules/image-many-dropzone.tsx:26-55 | for a list within `maxImages`, the drop area is disabled exactly when dropping files would add none of them |
| ImageCard.TruncatedPrompt | src/components/modules/image-card.tsx:21 | the first seven space-separated words, rejoined, are a prefix of the prompt |
| ImageCard.TruncationIffExpandable | src/components/modules/image-card.tsx:21-22 | the prompt is shortened exactly when it has more than seven words, which is when "show more" appears |
| ImageCard.ShouldShowExpand | src/components/modules/image-card.tsx:22 | "show more" appears exactly when the prompt has at least seven spaces, that is more than seven space-separated words |
| ImageCard.PromptText | src/components/modules/image-card.tsx:88-91 | an expanded card, or one with at most seven words, shows the whole prompt; otherwise it shows the truncation followed by `...` |
| ImageCard.DisplayUrl | src/components/modules/image-card.tsx:23 | a non-empty edited URL is shown; otherwise the original |
| ChatInput.ChatInputBox.constructor | src/components/modules/chat-input.tsx:17 | the box starts empty with nothing sent |
| ChatInput.ChatInputBox.OnChange | src/components/modules/chat-input.tsx:38 | the box holds what was typed; nothing is sent |
| ChatInput.ChatInputBox.SendDisabled | src/components/modules/chat-input.tsx:46 | the send button is disabled exactly while the text is blank |
| ChatInput.ChatInputBox.HandleSend | src/components/modules/chat-input.tsx:19-25 | non-blank text is sent trimmed and the box is cleared; blank text is neither sent nor cleared; everything ever sent is non-empty and trimmed |
| ChatInput.ChatInputBox.HandleKeyDown | src/components/modules/chat-input.tsx:27-32 | Enter without Shift suppresses the newline and sends; every other key leaves text and log alone |
| MixerEdit.SlotNamesDistinct | src/app/api/mixer-edit/route.ts:445-446 | the five form field names `image_0` … `image_4` are pairwise different |
| MixerEdit.SlotFiles | src/app/api/mixer-edit/route.ts:444-450 | at most five files are gathered; none is gathered exactly when every slot is empty |
| MixerEdit.FilledSlots | src/app/api/mixer-edit/route.ts:445-448 | the slots below the bound that hold a file, in strictly increasing order |
| MixerEdit.FilledSlotsComplete | src/app/api/mixer-edit/route.ts:445-448 | no slot below the bound that holds a file is missed |
| MixerEdit.SlotFilesInSlotOrder | src/app/api/mixer-edit/route.ts:444-450 | the k-th gathered file is the file under the k-th filled slot, so every filled slot contributes, in slot order |
| MixerEdit.GatherFiles | src/app/api/mixer-edit/route.ts:444-450 | the loop over the five slots gathers exactly `SlotFiles` |
| MixerEdit.OtherFieldsIgnored | src/app/api/mixer-edit/route.ts:445-446 | a file under any other field name does not change what is gathered |
| MixerEdit.Validate | src/app/api/mixer-edit/route.ts:452-504 | the input passes exactly when there is an image, a prompt that is not blank after `trim`, and a non-empty model. Failures are checked in the order images, prompt, model, and each is a non-retryable 400 validation error |
| MixerEdit.ProviderFor | src/app/api/mixer-edit/route.ts:516-520 | a `fal-ai/` prefix goes to FAL even when the id also names Gemini. Otherwise an id that includes `google/gemini` or `openrouter` goes to OpenRouter, and any other id to neither |
| MixerEdit.UnknownModel | src/app/api/mixer-edit/route.ts:520-535 | an unsupported model is a non-retryable 400 `UNKNOWN_MODEL` titled `Unknown Model` with message `Unknown model specified`, and the details are exactly `Model "<id>" is not supported` |
| MixerEdit.FalRequestFor | src/app/api/mixer-edit/route.ts:57-90 | FAL gets the prompt, one JPEG output, queued, and for each file, in file order, exactly that file's data URL with its MIME type |
| MixerEdit.FalError | src/app/api/mixer-edit/route.ts:139-199 | status 422 is a non-retryable `FAL AI Validation Error`. Its message is the body's message when truthy, otherwise `Invalid request parameters for FAL AI`. A detail list gives its entries joined by `, `; a truthy text detail is used as it is; with neither, the body's message, and without that the error message or `Unknown FAL AI error`. Status 401 is `FAL AI Authentication Error` with `Invalid FAL AI API key`, and 429 a retryable `FAL AI Rate Limit` with `FAL AI rate limit exceeded`. Anything else is a retryable 500 `FAL AI Error`, `Failed to process images with FAL AI`. Outside 422 the details are the error message or `Unknown FAL AI error` |
| MixerEdit.ClassifyFalError | src/app/api/mixer-edit/route.ts:139-199 | the `catch` block's defaults and status branches give exactly `FalError` |
| MixerEdit.EmptyDetailListClearsDetails | src/app/api/mixer-edit/route.ts:165-168 | an empty `detail` array is truthy, so a 422 with one ends with empty details |
| MixerEdit.DetailEntryText | src/app/api/mixer-edit/route.ts:167 | one detail entry reads exactly `<loc joined by .> - <msg>`: it starts with the location (or `undefined`), ends with ` - ` and the message (or `undefined`), and its length is the sum of the three, so nothing lies between them |
| MixerEdit.DetailListText | src/app/api/mixer-edit/route.ts:166-167 | the entries' texts joined by `, `: empty exactly for an empty list, and a single entry's text as it is |
| MixerEdit.DetailListTextAppend | src/app/api/mixer-edit/route.ts:166-167 | one more entry adds `, ` and its text at the end, so the entries appear in list order |
| MixerEdit.ValidationDetails | src/app/api/mixer-edit/route.ts:159-168 | the 422 details: a detail list wins, then a truthy text detail, then a truthy body message, and otherwise the details stay as they were |
| MixerEdit.FalResponse | src/app/api/mixer-edit/route.ts:99-117 | a FAL result succeeds with the request id, the images (or `[]`), the description (or `""`) as content, and each file's name and size in order; `hasImages` holds exactly when at least one image came back; a thrown value becomes `FalError` |
| MixerEdit.HandleFal | src/app/api/mixer-edit/route.ts:57-117 | the per-file loop builds exactly `FalRequestFor`, and the answer is `FalResponse` of what FAL gives back |
| MixerEdit.RouterRequestFor | src/app/api/mixer-edit/route.ts:203-252 | one user message for the Gemini model with 1000 max tokens: the prompt first, then one image part per file, in order |
| MixerEdit.RouterResponse | src/app/api/mixer-edit/route.ts:270-346 | a completion succeeds exactly when its first choice finished with `stop`; otherwise it fails with the finish-reason failure. On success the images are the normalised images of the first choice's message, the content is its text (or `""`), model, id and usage come from the completion, and each file's name and size are echoed in order. A thrown value goes through the classifier |
| MixerEdit.HandleOpenRouter | src/app/api/mixer-edit/route.ts:203-346 | the per-file loop builds exactly `RouterRequestFor`, and the answer is `RouterResponse` of what OpenRouter gives back |
| MixerEdit.InternalError | src/app/api/mixer-edit/route.ts:544-561 | a failure before the handlers is a retryable 500 `INTERNAL_ERROR` whose details are the error message or `Unknown server error` |
| MixerEdit.MixerPost | src/app/api/mixer-edit/route.ts:437-562 | rejected input answers 400 with exactly the validation error and calls no vendor. A valid form is answered by `RouteByModel` on the gathered files, the prompt and the model. A success answers 200, and a failure answers with its error's `httpStatus` |
| MixerEdit.RouteByModel | src/app/api/mixer-edit/route.ts:513-542 | a `fal-ai/` model is sent `FalRequestFor` and answered with `FalResponse` of FAL's outcome. An OpenRouter model is sent `RouterRequestFor` and answered with `RouterResponse`. Any other model answers 400 `UNKNOWN_MODEL` and calls no vendor |
| MixerEdit.DispatchedRequests | src/app/api/mixer-edit/route.ts:513-542 | FAL is called only for a parsed `fal-ai/` form, with one to five images and the non-blank prompt. OpenRouter is called only for an OpenRouter model, with the prompt first. The answer is that vendor's |
| MixerEdit.Post | src/app/api/mixer-edit/route.ts:437-562 | the early returns, in the source's order, give exactly `MixerPost` |
| MixerEdit.Route | src/app/api/mixer-edit/route.ts:513-542 | the `if`/`else if` dispatch and the success-or-status answer give exactly `RouteByModel` |
| MixerEdit.FailureStatusFromVendor | src/app/api/mixer-edit/route.ts:538-540 | a failed envelope is answered with 200 only when an OpenRouter error carried the status 200 |
| OpenRouterEdit.EditRequest | src/app/api/openrouter-edit/route.ts:69-117 | one user message for the Gemini model with 1000 max tokens: the prompt, then exactly the image's data URL of its MIME type |
| OpenRouterEdit.ThrownReply | src/app/api/openrouter-edit/route.ts:400-405 | a thrown value is classified, and its `httpStatus` is the HTTP status |
| OpenRouterEdit.CompletionReply | src/app/api/openrouter-edit/route.ts:171-266 | a completion succeeds exactly on `stop`; otherwise it fails with the finish-reason failure, answered with 422 or 500. On success the content is handed on as it came, the images are the normalised images of the first choice's message, model, id and usage come from the completion, `hasImages` holds exactly when `images` is not `null`, and the file's name and size are echoed |
| OpenRouterEdit.EditPost | src/app/api/openrouter-edit/route.ts:49-407 | a missing image is reported before a missing prompt, and either answers 400 without calling the vendor. The vendor is called exactly when both are present, with `EditRequest`, and the answer is `ThrownReply` of a thrown value or `CompletionReply` of a completion. Every error answer carries its own `httpStatus` |
| OpenRouterEdit.Post | src/app/api/openrouter-edit/route.ts:49-407 | the early returns and the `try`/`catch` give exactly `EditPost` |
| OpenRouterEdit.BlankPromptIsSent | src/app/api/openrouter-edit/route.ts:62-67 | the prompt check is for an empty string only, so a prompt of spaces is sent |
| OpenRouterEdit.ImageCheckedFirst | src/app/api/openrouter-edit/route.ts:55-67 | without an image the answer is "No image file provided", whatever the prompt |

## Left out

- The `maxImages = 5` default of the upload area's props is not modelled: every operation takes `maxImages` as a parameter, and the one page that uses the area passes 5.

- `getStorageSize` (`src/lib/storage/localStorage.ts:102-111`) is not modelled. It formats a `Blob` byte count as kilobytes with `toFixed`, which is floating-point text formatting.
- JSON is not modelled. The storage slot holds records directly. `Unreadable` stands for text that `JSON.parse` rejects, and an absent or empty entry is `Absent`.
- A write that exceeds the storage quota is the `writeFails` input. The error is caught and logged, and the log is not modelled.
- `URL.createObjectURL` and `Math.random().toString(36)` ids are supplied as `Minted` inputs. `URL.revokeObjectURL` is modelled as an append to a log of released URLs.
- `Date` is reduced to its ISO text. The card's relative time (`formatDistanceToNow`) is not modelled.
- Reading a file (`arrayBuffer`, base64 encoding) is not modelled: a `File` carries its base64 payload. A failure while reading is therefore not modelled.
- `JsText.ToLower` lower-cases ASCII letters only; JavaScript's `toLowerCase` also maps non-ASCII capitals.
- A `finish_reason` of `null` renders as `null` in the source's template literal. The model has one "missing" case, which renders as `undefined`.
- An `images` value that is truthy but not an array is passed on unchanged by the source. The model only has an array or nothing. A `null` entry inside the array would throw in the normaliser; this is not modelled.
- FAL image entries are passed through as they come. The model keeps only their URL and content type.
- The single-image route's debug echo fields (`completeMessage`, `completeResponse`) and all console logging are not modelled.
- The single-image route's fallback to `JSON.stringify(response.data)` when reading the vendor error throws (`src/app/api/openrouter-edit/route.ts:382-385`) is not modelled. Reading plain data fields cannot throw.
- Form fields of the wrong kind are not modelled: a text value under `image_0` … `image_4` or `image`, or a file under `prompt` or `model`. Form parse failures are an input.
- The drop area's file filtering is done by the react-dropzone library: MIME types, extensions, the 10 MB limit. The list of accepted files is an input. Drag-hover visuals and size display in MB are not modelled.
- The card's delete confirmation (`confirm`), hover state, image-load error state and processing overlay are rendering, not modelled.
- The store's subscription and re-render mechanics (zustand) are not modelled; only its state transitions are.
- `src/app/api/image-edit/route.ts`, `src/app/api/gemini-chat/route.ts` and the page components that call the core are not part of this model.
- Client credentials, base URL and request headers come from environment variables and are not modelled.
