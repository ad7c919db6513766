# TourRadar Iceland assistant: a verified model of its page logic

The repository is a set of Streamlit pages that put an OpenAI assistant in front of a
collection of Iceland tours, plus a batch script that turns the tour list into Word documents
with pictures. This project models the sequential logic inside them and proves what it
promises:

- **streaming.py** (`Streaming`): the chat page that streams an answer into the transcript one
  script run at a time.
  - `chat()` turns the completion stream into items, exactly one per chunk. A failure outside the
    per-chunk handler adds one final `"parent error: …"` item.
  - The session keeps the chat history, the `streaming` flag and the pending generator.
    `process_user_input` and `update_assistant_response` are methods of the `ChatSession` class,
    each proved against a pure function on a `Session` value.
  - Lemmas prove that every script run keeps the invariant. After a submission and `k` pulls,
    the assistant turn holds the first `k` items glued together.
- **stream.py** (`StreamPage`) and **streaming_with_chat_history.py** (`ChatHistoryPage`): the two
  assistant pages.
  - Both share the delta buffer `DeltaBuffer`: `result_output` and `res_box`. `on_text_delta`
    appends to the list and redraws `strip("".join(list))`.
  - stream.py also has the `submit` hand-off from the text box to `user_input` and the
    non-empty gate.
  - The chat-history page also has `format_image_html`, the `messages` history and the image
    section.
- **cdn_image_population.py** (`ImagePaths`, `Pagination`):
  - `image_to_jpg` as a path computation, over a model of POSIX `pathlib` parsing, `suffix`,
    `stem`, `parent` and `/`.
  - `read_json` as nested loops that cut the tours into chunks of ten, number the documents
    from 1, add one picture per fetched image and print progress.
- `Text` holds the Python string operations these rely on: `"".join`, `str.strip` over the
  `str.isspace` characters, and `str(n)`. `Wrappers` holds `Option`.

Foreign calls become parameters:
- the completion service is a function from the posted prompt to the stream it answers with;
- the assistant run of streaming_with_chat_history.py is a list of text deltas plus the final
  text or an exception; that of stream.py is the list of deltas that arrived plus the exception
  that ended it, if any;
- the HTTP fetch of an image is a predicate on its url;
- whether thread creation (or assistant retrieval) raises is an optional error message;
- the API key secret, the chat input and the text typed into the box are arguments of the
  script-run methods.

Behaviour of the code a reader might not expect, which the model keeps as written:
- A submission made while an answer is still streaming is accepted. The pair of turns is
  appended and the old generator is replaced (`Streaming.Submitted`); it is not rejected.
- A stop chunk yields an empty item rather than being dropped (`Streaming.ChunkItems`).
- An error is glued onto the partial answer with the prefix `parent error: ` or `error: `,
  with no separator (`Streaming.PartialAnswerThenFailure`).
- The prompt posted by `chat()` is `messages[0]`, the first user turn of the whole history,
  not the newest one (`Streaming.Chat`, `Streaming.Submitted`).
- A new thread is created on every script run, before any input is handled, so a failure there
  loses the run's input (`Streaming.ThreadFailureKeepsSession`); the model has no conversation
  identifier.
- stream.py never clears `user_input`, so every later run sends the same question again
  (`StreamPage.SubmittedQueryIsResent`).

## Model

| member | source | states |
|---|---|---|
| Text.ConcatAppend | stream.py:27 | joining two runs of parts is joining each and gluing the results |
| Text.TrimStartSpec | stream.py:27 | lstrip removes exactly the leading run of `str.isspace` characters: the result is a suffix, what was removed is all whitespace, and the result does not start with whitespace |
| Text.TrimEndSpec | stream.py:27 | rstrip removes exactly the trailing run of whitespace, symmetrically |
| Text.StripGrows | stream.py:26-28 | if more text is appended before stripping, the old stripped text is a prefix of the new one |
| Text.NatToDecimal | streaming_with_chat_history.py:22 | `str(n)` is non-empty, all decimal digits, and has no leading zero unless it is "0" |
| Text.DecimalRoundTrip | streaming_with_chat_history.py:22 | reading back the digits of `str(n)` gives n |
| Text.DecimalInjective | cdn_image_population.py:67 | distinct numbers print differently |
| Streaming.ChunkItems | streaming.py:67-77 | one item per chunk, in order: the delta text, "" for a stop chunk, "error: "+msg for a chunk that fails |
| Streaming.ChunkItemsAppend | streaming.py:67-77 | later chunks only extend the items already yielded; nothing is merged or reordered |
| Streaming.Decode | streaming.py:52-88 | the chunk items come first; an escaped exception adds exactly one last item "parent error: "+msg |
| Streaming.Chat | streaming.py:52-57 | the prompt posted is the content of `messages[0]`; an empty list yields only the IndexError's parent-error item |
| Streaming.Initialised | streaming.py:101-105 | chat_history and streaming are created only when absent; existing values and the invariant survive |
| Streaming.Submitted | streaming.py:132-140 | the history grows by exactly [user(input), assistant("")], the flag is raised, and a new generator at position 0 replaces any old one |
| Streaming.SubmittedPrompt | streaming.py:132-140 | the new generator decodes the answer to the first turn of the history (`messages[0]`, line 56), not to the latest submission |
| Streaming.AppendToLast | streaming.py:150 | only the last turn changes, and its content becomes old content + chunk |
| Streaming.Pulled | streaming.py:147-156 | a pull either appends the next item to the last turn and advances the generator, leaving the flag alone, or (StopIteration) lowers the flag and changes nothing else |
| Streaming.AppendPairAlternates | streaming.py:134-140 | appending a user turn then an assistant turn keeps the history a list of (user, assistant) pairs |
| Streaming.SubmittedKeepsInv | streaming.py:132-140 | a submission keeps the session invariant |
| Streaming.PulledKeepsInv | streaming.py:147-156 | a pull keeps the invariant: the last turn is the glued items pulled so far |
| Streaming.ScriptRunKeepsInv | streaming.py:92-129 | every script run keeps the invariant, whatever the API key, the outcome of threads.create and the input |
| Streaming.ThreadFailureKeepsSession | streaming.py:113-129 | when threads.create raises, the run ends with the session as initialised (no submission, no pull) and the failure escapes |
| Streaming.PulledTimes | streaming.py:147-156 | k runs without input keep the invariant and the generator's items |
| Streaming.PullStreamed | streaming.py:149-150 | one pull mid-answer moves from k glued items to k+1 |
| Streaming.CycleTranscript | streaming.py:132-150 | after a submission and k pulls, the transcript is the old one + user turn + assistant turn holding the first k items glued together, and the flag is still up |
| Streaming.PulledFromStreamed | streaming.py:147-150 | k pulls from a freshly installed generator stream exactly its first k items into the last turn |
| Streaming.CycleEnds | streaming.py:153-154 | the pull after the last item lowers the flag and leaves the whole answer in the transcript |
| Streaming.FailureKeepsPartial | streaming.py:67-88 | an exception escaping the loop keeps the glued items yielded so far and appends "parent error: "+msg with no separator |
| Streaming.StopAddsNothing | streaming.py:73-75 | a stop chunk at the end leaves the glued answer unchanged |
| Streaming.PartialAnswerThenFailure | streaming.py:67-88 | two deltas and then an exception give "Reykjavik isparent error: timed out" |
| Streaming.FinishedAnswer | streaming.py:67-77 | a stop chunk adds nothing to the answer |
| Streaming.ChatSession.InitState | streaming.py:101-105 | the session object's keys change as `Initialised` says; the invariant holds |
| Streaming.ChatSession.SubmitInput | streaming.py:132-140 | in place: exactly `Submitted`, keeping the invariant |
| Streaming.ChatSession.ProcessUserInput | streaming.py:132-144 | in place: a submission for non-empty input, otherwise one pull |
| Streaming.ChatSession.UpdateAssistantResponse | streaming.py:147-156 | in place: exactly `Pulled` |
| Streaming.ChatSession.RunChatInterface | streaming.py:120-129 | a failing threads.create changes nothing and escapes; otherwise it acts only when there is input or the flag is up |
| Streaming.ChatSession.RunScript | streaming.py:92-129 | one run of main(): initialise, then run the chat only for a non-empty API key; the thread failure escapes only when the chat is reached |
| DeltaBuffer.Renders | stream.py:46-47 | res_box first shows "Processing...", then once per delta |
| DeltaBuffer.RendersAt | streaming_with_chat_history.py:14-17 | the k-th redraw is strip of the first k deltas joined in arrival order |
| DeltaBuffer.DisplayedGrows | stream.py:26-28 | an earlier redraw is a prefix of every later one: the shown answer only grows |
| DeltaBuffer.ResultBox.OnTextDelta | stream.py:25-28 | the delta is appended at the end, earlier entries are unchanged, and the redraw is the stripped join of the whole list |
| DeltaBuffer.RunStream | stream.py:55-60 | a run starting from an empty list shows exactly `Renders(deltas)` |
| StreamPage.Initialised | stream.py:10-11 | user_input is set to "" only when absent |
| StreamPage.Submitted | stream.py:14-16 | user_input takes the old query and query becomes "" |
| StreamPage.Sent | stream.py:44-53 | something is sent exactly when user_input is non-empty, and then it is user_input |
| StreamPage.InitialisedIdempotent | stream.py:10-11 | initialising again changes nothing and keeps an existing user_input |
| StreamPage.SubmittedQueryIsSent | stream.py:14-53 | the run after a submission sends exactly the typed text, unless it was empty |
| StreamPage.SubmittedQueryIsResent | stream.py:10-16 | user_input is never cleared: every run after one submission keeps the submitted state and sends the typed question again |
| StreamPage.QueryPage.Enter | stream.py:37 | the text box stores the typed text under "query" and nothing else changes |
| StreamPage.QueryPage.Submit | stream.py:14-16 | in place: exactly `Submitted`, no other field changes |
| StreamPage.QueryPage.RunScript | stream.py:10-62 | initialises user_input; when assistants.retrieve or threads.create raises, nothing is sent and the error escapes; otherwise sends user_input and shows `Renders(deltas)` only when it is non-empty, and a failure of the post or the stream escapes after the deltas that arrived |
| ChatHistoryPage.ParseFormat | streaming_with_chat_history.py:21-22 | every tag the f-string builds reads back to its url, width and height, whatever the url contains |
| ChatHistoryPage.FormatImageHtmlInjective | streaming_with_chat_history.py:21-22 | different arguments give different tags |
| ChatHistoryPage.PageImageTag | streaming_with_chat_history.py:79 | the page's tag is exactly `<br><img src="URL" width="500" height="500">` |
| ChatHistoryPage.WithDefaults | streaming_with_chat_history.py:38-42 | openai_model defaults to "gpt-3.5-turbo" and messages to [] only when absent |
| ChatHistoryPage.Conversation | streaming_with_chat_history.py:48-75 | a prompt appends the user message; a completed answer then appends the assistant message; without a prompt nothing changes |
| ChatHistoryPage.ImageSection | streaming_with_chat_history.py:78-80 | a tag is rendered exactly when image_url is present and it reads back to that url and 500x500; the cdn key alone is a KeyError for "image_url" |
| ChatHistoryPage.Run | streaming_with_chat_history.py:35-82 | a failed thread creation changes nothing and is shown; otherwise the prompt is what is sent and the redraws are `Renders` of its deltas |
| ChatHistoryPage.WithDefaultsIdempotent | streaming_with_chat_history.py:38-42 | re-running the initialisation keeps existing keys |
| ChatHistoryPage.CompletedCycle | streaming_with_chat_history.py:48-75 | a completed cycle grows the history by exactly [user(prompt), assistant(answer)] and sends `messages[-1]`, the prompt |
| ChatHistoryPage.FailedCycle | streaming_with_chat_history.py:48-82 | a stream failure keeps the user message without an answer, shows the error and skips the image |
| ChatHistoryPage.RunKeepsPairs | streaming_with_chat_history.py:48-75 | while answers complete, the history stays (user, assistant) pairs |
| ChatHistoryPage.FailureBreaksPairs | streaming_with_chat_history.py:48-75 | after one failure the next prompt follows the unanswered one: two user messages in a row |
| ChatHistoryPage.MissingImageUrl | streaming_with_chat_history.py:78-82 | the cdn key without image_url shows a KeyError even on a run without a prompt |
| ChatHistoryPage.MessagesPage.InitState | streaming_with_chat_history.py:38-42 | in place: the keys change exactly as `WithDefaults` says |
| ChatHistoryPage.MessagesPage.Converse | streaming_with_chat_history.py:48-75 | in place: the history changes exactly as `Conversation` says; the prompt is sent and its deltas redrawn only when it is non-empty |
| ChatHistoryPage.MessagesPage.ShowImage | streaming_with_chat_history.py:78-80 | the tag or KeyError shown is exactly `ImageSection` of the current keys |
| ChatHistoryPage.MessagesPage.RunScript | streaming_with_chat_history.py:35-82 | in place: the new keys and the outcome are exactly `Run` |
| ImagePaths.ParseRender | cdn_image_population.py:12 | printing a parsed path and parsing it again gives the same path |
| ImagePaths.ParseNormal | cdn_image_population.py:12 | every parsed path has a valid anchor and parts that are non-empty, not "." and free of slashes |
| ImagePaths.SegmentsSplit | cdn_image_population.py:12 | splitting at a slash splits the halves independently |
| ImagePaths.ValidPassesThrough | cdn_image_population.py:22-26 | a path whose suffix is in the accepted set is returned unchanged |
| ImagePaths.ResultSuffix | cdn_image_population.py:23 | every path ending in "_result.jpg" has the suffix ".jpg" |
| ImagePaths.ImageToJpgIdempotent | cdn_image_population.py:11-26 | converting a converted path changes nothing |
| ImagePaths.ImageToJpgKeepsFolder | cdn_image_population.py:22-25 | a converted path keeps the anchor and folders, and its last part is the stem + "_result.jpg" |
| ImagePaths.RenamedInFolder | cdn_image_population.py:22-25 | "dir/stem.ext" with ext outside the set becomes "dir/stem_result.jpg" |
| ImagePaths.RenamedInPlace | cdn_image_population.py:22-25 | "stem.ext" with ext outside the set becomes "stem_result.jpg" |
| ImagePaths.JpegIsRenamed | cdn_image_population.py:13-23 | ".jpeg" is not in the set: "photos/image.jpeg" becomes "photos/image_result.jpg" |
| ImagePaths.UpperCaseIsRenamed | cdn_image_population.py:22 | the comparison is case-sensitive: "a.PNG" becomes "a_result.jpg" |
| Pagination.DownloadedImageIsRenamed | cdn_image_population.py:33-35 | the downloaded "image.jpeg" reaches the document as "image_result.jpg" |
| Pagination.DocNamesDistinct | cdn_image_population.py:66-67 | different counters give different file names |
| Pagination.PageCount | cdn_image_population.py:44-49 | there are ceil(n/10) chunks, and chunk c exists exactly when tour 10c does |
| Pagination.PageAt | cdn_image_population.py:47-49 | the k-th chunk is `data[10k:10k+10]`, cut short at the end of the list |
| Pagination.PagesFlatten | cdn_image_population.py:47-49 | gluing the chunks together gives the tour list: every tour once, in order |
| Pagination.PageSizes | cdn_image_population.py:46-49 | every chunk holds 1 to 10 tours, all but the last exactly 10 |
| Pagination.Repeat | cdn_image_population.py:61-63 | n copies of the progress number |
| Pagination.MarksInRange | cdn_image_population.py:47-63 | one progress number per image, each a position between 1 and n, never decreasing |
| Pagination.ChunkMarksAppend | cdn_image_population.py:50-63 | the progress numbers of two consecutive runs of tours are those of the first followed by those of the second, counted on from where the first ended |
| Pagination.MarksExtend | cdn_image_population.py:47-63 | the progress numbers up to chunk end hi are those up to chunk start lo followed by the chunk's own `i+index+1` numbers |
| Pagination.TourPicturesAreConverted | cdn_image_population.py:29-35 | at most one picture per url; each is "image_result.jpg" downloaded from one of the urls that answered 200, and every such url has one |
| Pagination.Documents | cdn_image_population.py:47-67 | one document per chunk |
| Pagination.DownloadTour | cdn_image_population.py:60-63 | one picture per fetched url and the tour's position once per url |
| Pagination.WriteChunk | cdn_image_population.py:50-65 | the pictures of the chunk's tours in order, and for the tour at chunk index `index` the number i+index+1 once per url |
| Pagination.SaveDocument | cdn_image_population.py:48-67 | the document saved for chunk c is the c-th of `Documents(data)`, and its progress numbers continue `Marks` of the tours before it |
| Pagination.ReadJson | cdn_image_population.py:41-67 | the saved documents are exactly `Documents(data)`: chunk k is named tour_images_part_{k+1}.docx; progress is `Marks(data)` |

## Left out

- Streamlit rendering: titles, `st.markdown`, `st.chat_message`, the replay of the history on each run and the CSS. `st.rerun()` ends a step: one script run is one step of the session.
- OpenAI SDK calls: assistant retrieval, thread creation, message posting, `runs.create` and `runs.stream`. The completion service and the assistant run are parameters; whether thread creation (and in stream.py assistant retrieval) raises is a parameter too.
- Streaming.Chat: the thread id passed at streaming.py:54-60 is not modelled; the completion service is taken to answer from the posted prompt alone.
- The generator returned by `chat()` is lazy. The model computes its items when it is installed. Both read the same prompt, because `messages[0]` does not change once the history is non-empty.
- `delta.content` of None is not modelled: a delta's text is a string.
- `print` output of every file: console logging, not page behaviour. The progress print of `read_json` is modelled as the progress numbers.
- The `EventHandler` class of streaming.py is never used, and its `on_text_delta` is a generator that is never iterated.
- `st.secrets` lookups that fail, and the sidebar key box of streaming.py, whose value is never used.
- `download_images`: the HTTP request, the file write, PIL's open, convert and save, and `add_picture` sizing are I/O. Only the picture path and whether the status was 200 are modelled.
- python-docx headings and paragraphs: only which tours each document holds is modelled.
- `asyncio`: the awaits are sequential.
- create_assistant.py is not part of this model: it is a one-off provisioning script of API calls.
- ImagePaths.Suffix follows `pathlib` up to Python 3.13: a name whose last dot is its first or last character has no suffix. Python 3.14 counts a trailing dot as a suffix; that is not modelled.
- ImagePaths.ImageToJpgKeepsFolder excludes the stem ".", as in "a/..x". There `path.parent / "."` drops the stem and the result is "a_result.jpg". It also excludes the path with no name at all, such as "/" or "".
- ImagePaths: a path with ".." parts is kept as written, as `PurePosixPath` does. Symbolic links and the file system are not consulted.
