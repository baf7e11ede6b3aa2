# computer-use app.py: session setup, rendering, relay and the planner loop

This project models the decision logic of `app.py`, the entry point of the
computer-use demo, and proves properties of the model in Dafny. The file is
mostly glue around a Gradio UI, FastAPI routes, OpenAI and the unseen
`sampling_loop_sync`. The logic modelled here is:

- **`setup_state` and `_reset_model`** (module `Session`). The session
  dictionary is a record with one `Option` per key; `None` is an absent key.
  `setup_state` fills in only absent keys, in the source's order. The lookup
  of the default model raises when the table has no entry for the provider.
  When that happens the first four keys are already filled and nothing else,
  and `SetupState` returns that partial state with the fault. The environment
  variable, the stored prompt, the platform name and the provider-to-model
  table are passed in as an `Env` record.
- **The two callbacks** (`Session`). Each is one map update; the timestamp is
  a parameter.
- **`_render_message`** (module `Render`). Messages are a closed datatype.
  Three things come from outside app.py and are parameters:
  - the truth value of a non-string message (`ToolResult.__bool__`);
  - the truth value of `hide_images`;
  - base64 decoding.

  The `hasattr` conjuncts of the suppression test never hold for a tool
  result, whose `output` and `error` are fields. So the test reduces to
  `not message` (`SuppressionClauseNeverFires`). Testing the field values
  instead would give the same results (`SuppressionClauseRedundant`).
- **`accumulate_messages`, `message_generator` and `process_input_api`**
  (module `Relay`):
  - a duplicate-suppressing filter;
  - Server-Sent-Events framing, where an exception becomes one final error
    chunk;
  - the 401 check on the key header, and the failure of the text block for
    a user input that is not a string.
- **`response_generator`** (module `Supervisor`), the planner/agent loop
  behind `/api/process_input_api_using_model`. Both models are scripts
  indexed by call number. A `fuel` bound stands in for the unbounded
  `while True`.
- **Python string operations** (module `Text`). The loop's decisions depend
  on `str.strip`, `str.upper` and `in` on strings, so these are modelled
  explicitly.

The outer handler of `response_generator` calls `datetime.datetime.now()`,
but app.py imports `datetime` as the class (`from datetime import datetime`,
line 10). The handler therefore raises `AttributeError` before it yields its
error chunk. Any exception outside the agent turn ends the stream with no
error chunk: this is the end `Crashed`. The model follows the code here, and
the repaired handler is modelled beside it (see Findings).

Two more behaviours follow from the code as written. The loop variable
`message` keeps its value from an earlier turn when a turn yields nothing, so
the planner is asked about a stale value. On the first turn there is no such
value, and line 526 raises `UnboundLocalError` (`EmptyTurnReusesLast`,
`EmptyFirstTurnCrashes`).

Files: `wrappers.dfy` (Option/Result), `text.dfy`, `session.dfy`,
`render.dfy`, `relay.dfy`, `supervisor.dfy`.

## Model

| member | source | states |
|---|---|---|
| Text.Strip | app.py:483 | Python's `str.strip()`: whitespace removed from both ends; what it keeps is stated by StripShape and StripIdempotent |
| Text.StripShape | app.py:483 | `str.strip()` keeps a middle slice of its input; that slice neither begins nor ends with whitespace, and everything cut off on either side is whitespace |
| Text.StripIdempotent | app.py:531 | stripping an already stripped answer changes nothing |
| Text.Upper | app.py:541 | Python's `str.upper()`, character by character; its behaviour is stated by UpperConcat and UpperAscii |
| Text.UpperConcat | app.py:541 | `str.upper()` works piecewise: the upper-case form of a concatenation is the concatenation of the upper-case forms |
| Text.UpperAscii | app.py:541 | on ASCII text, `str.upper()` maps each lower-case letter to its capital and keeps every other character, keeping the length |
| Text.Contains | app.py:541 | Python's `needle in haystack` on strings: the needle occurs at some position; ContainsMiddle and UpperContainsWord state when it holds |
| Text.ContainsMiddle | app.py:541 | `needle in haystack` holds for every text assembled around the needle |
| Text.UpperContainsWord | app.py:541 | a word that occurs in a text still occurs, upper-cased, in the upper-cased text |
| Session.DefaultProvider | app.py:72-73 | the provider default is the `API_PROVIDER` value when it is set and non-empty, and "anthropic" when it is unset or empty; it is never empty |
| Session.DeviceName | app.py:89 | the machine name is one of Windows/Mac/Linux; it is Windows exactly for the platform "Windows" and Mac exactly for "Darwin" |
| Session.DefaultSystemPrompt | app.py:86-90 | the default system prompt is the stored prompt (or "") followed by the machine note for exactly one of Windows, Mac or Linux |
| Session.ResetModel | app.py:95-96 | the lookup succeeds exactly when a string provider is present and in the table, and it then changes only "model", to the table's entry. Otherwise it fails with KeyError("provider") for a missing key, TypeError for an unhashable provider, or KeyError(provider) |
| Session.FillHead | app.py:64-75 | the first four steps fill "messages", "api_key", "provider" and "provider_radio" only where absent; "provider_radio" copies the provider as it then stands; no other key changes |
| Session.FillTail | app.py:78-92 | the last six steps give each absent key its fixed default (False, {}, {}, 2, the system prompt, False); no other key changes |
| Session.SetupState | app.py:63-92 | it succeeds exactly when "model" is present or the provider has a default model. On success, every key present before keeps its value and all eleven keys are present. On failure, the partial state has only the first four keys filled, and it is the state the model lookup raised on |
| Session.SetupDefaultsHead | app.py:64-77 | after a successful setup, each absent key among the first five holds its default: [], the placeholder key, the provider default, the provider, and the table's model for that provider |
| Session.SetupDefaultsTail | app.py:78-92 | after a successful setup, each absent key among the last six holds its fixed default |
| Session.SetupFresh | app.py:63-96 | on `{}`, setup succeeds exactly when the default provider has a table entry; it then yields the full default dictionary, and otherwise it fails with KeyError(provider) |
| Session.SetupLeavesCompleteState | app.py:63-92 | a dictionary that already holds all eleven keys comes back unchanged, whatever the environment |
| Session.SetupIdempotent | app.py:63-92 | calling `setup_state` a second time changes nothing |
| Session.ToolOutputCallback | app.py:156-157 | the tools dictionary gains the tool id with that output; every other entry is kept |
| Session.ApiResponseCallback | app.py:151-153 | the responses dictionary gains the timestamp with that response; every other entry is kept |
| Session.ToolOutputsCommute | app.py:156-157 | outputs of two different tool ids can be recorded in either order |
| Session.SameTimestampReplaces | app.py:151-153 | a second response under the same timestamp replaces the first |
| Render.RenderMessage | app.py:160-186 | nothing is shown exactly when the message is falsy, or is a tool result with no output, no error, and no image or images hidden. An image is shown only for a tool result with images not hidden, and it is the decoded image field. Only strings and other values pass through unchanged |
| Render.OutputWins | app.py:173-176 | a tool result with non-empty output shows the output, whatever its error and image fields and the hide flag hold |
| Render.ErrorShown | app.py:177-178 | without output, a non-empty error shows as "Error: " + error, whatever the image field holds |
| Render.ImageOnlyShownUnlessHidden | app.py:179-180 | a tool result with only an image shows the decoded image when images are not hidden, and nothing otherwise |
| Render.BlocksAndPassThrough | app.py:181-186 | a truthy text block shows its text; a tool-use block shows "Tool Use: name\nInput: input"; strings and other values are returned unchanged |
| Render.SuppressionClauseNeverFires | app.py:166-171 | the `hasattr` part of the suppression test never holds, so only `not message` suppresses |
| Render.SuppressionClauseRedundant | app.py:166-180 | testing the field values instead of the attributes in that clause changes no result |
| Relay.Dedup | app.py:229-234 | the relay's filter keeps a value when it was not yielded before, so it never yields more values than it was given; DedupContents and DedupKeepsFirstOccurrences state what it keeps |
| Relay.DedupContents | app.py:229-234 | the relay yields only values the sampling loop produced, yields every value it produced, and yields none twice |
| Relay.DedupKeepsFirstOccurrences | app.py:229-234 | the k-th value yielded is the k-th first occurrence in the input, in increasing input positions, and no first occurrence is skipped |
| Relay.DedupOfDistinct | app.py:229-234 | a sequence without repeats is relayed unchanged |
| Relay.DedupIdempotent | app.py:229-234 | relaying relayed output again changes nothing |
| Relay.AccumulateMessages | app.py:221-234 | the loop with its list of values already yielded computes the first-occurrence filter: no duplicates, nothing new, nothing dropped |
| Relay.Frame | app.py:456 | one Server-Sent-Events chunk, "data: " + payload + a blank line; UnframeFrame shows the payload can be recovered from it |
| Relay.ErrorFrame | app.py:458 | the chunk an exception becomes, the frame of "Error: " + its text; MessageGenerator shows it comes last and only after a raise |
| Relay.UnframeFrame | app.py:456 | stripping the "data: " prefix and the blank-line suffix from a chunk recovers exactly the payload it was made from |
| Relay.FrameUnframe | app.py:456 | every chunk with that prefix and suffix is the frame of what lies between them |
| Relay.RelayChunks | app.py:444-458 | the chunks of one run: a frame per relayed value, then an error frame if the run raised; MessageGenerator shows the loop streams exactly these |
| Relay.MessageGenerator | app.py:441-458 | there is one chunk "data: m\n\n" per relayed value, in order; if the run raised, exactly one final "data: Error: e\n\n" chunk follows; every chunk is well framed |
| Relay.ProcessInputApi | app.py:415-461 | for a readable JSON-object body (read at lines 416-417, before the 401 test), a missing or empty key header gives 401 and nothing else does. With the header, a failing `setup_state` gives its fault, and after it a user input that is not a string makes the `TextBlock` of line 436 raise, and exactly that. Streaming happens exactly when the header is present, `setup_state` on `{}` succeeds and the user input is a string; the stream is the relay's chunks |
| Relay.ProcessInputApiOutcome | app.py:418-461 | with a key header, the request streams exactly when the environment's default provider has a default model and the user input is a string; a missing model fails with `KeyError` on that provider, and otherwise a non-string input fails at the `TextBlock` |
| Supervisor.SaysFinal | app.py:541 | the closing test, "FINAL RESPONSE" occurring in the upper-cased answer; SaysFinalWhenWritten states which answers pass it |
| Supervisor.Turn | app.py:493-546 | a turn that goes on has a follow-up that does not say FINAL RESPONSE. A turn that stops has handed over one prompt, and asked the planner once exactly when it answered or raised. It ends with the closing chunk after an answer that says FINAL RESPONSE, and with the agent's error chunk when the sampling loop raised |
| Supervisor.TurnNextFollowsScript | app.py:513-546 | a turn goes on only when its sampling loop did not raise and the planner answered, and the next prompt is that answer stripped |
| Supervisor.TurnStopFollowsScript | app.py:513-543 | a turn that stops ends `AgentFailed` exactly when its sampling loop raised, with that exception's text, and a follow-up it records is the planner's answer stripped |
| Supervisor.Loop | app.py:491-546 | the first prompt is the plan. Every prompt but the last got a follow-up answer, and so did the last one when the planner answered it. There is one planner request per follow-up, plus one when the planner raised. There are never more than `fuel` prompts, and the loop ends `Exhausted` only after exactly `fuel` |
| Supervisor.LoopFollowsScript | app.py:491-546 | the i-th follow-up is the planner's stripped answer to its (i+1)-th request; no turn but the last raised; the loop ended `AgentFailed` exactly when the last turn's sampling loop raised, with its text |
| Supervisor.LoopFinalCloses | app.py:531-543 | when the last follow-up says FINAL RESPONSE, the loop closed, or the log dump at line 536, which runs before the test at line 541, raised |
| Supervisor.LoopFollowUps | app.py:531-546 | every follow-up answer but the last did not say FINAL RESPONSE and became the next prompt |
| Supervisor.LoopLastChunk | app.py:515-543 | the loop ends with the closing chunk, after a follow-up that says FINAL RESPONSE, when it closed, and with the agent's error chunk when the sampling loop raised |
| Supervisor.LoopNoErrorFrames | app.py:485-542 | none of the chunks the loop streams is a generic "data: Error: " chunk |
| Supervisor.LoopFuelIndependent | app.py:491-546 | a loop that ends within the fuel bound gives the same transcript under any larger bound |
| Supervisor.Converse | app.py:468-555 | the first planner request carries the user input. If it raises, nothing is streamed. Otherwise the stream opens with the stripped plan, and the plan is the first prompt. A failing `setup_state` stops everything before any prompt |
| Supervisor.ConverseEnds | app.py:515-543 | a closed conversation ends with the closing chunk, and its last follow-up says FINAL RESPONSE; a conversation ended by the sampling loop raising ends with the agent's error chunk for that exception |
| Supervisor.ConverseFollowUps | app.py:541-546 | every follow-up but the last did not say FINAL RESPONSE and became the next prompt |
| Supervisor.ConverseFinalCloses | app.py:531-543 | the converse of ConverseEnds: a follow-up that says FINAL RESPONSE is the last one, and the conversation closed after it unless the log dump at line 536 raised first |
| Supervisor.ConverseNonFinalContinues | app.py:531-546 | a follow-up that does not say FINAL RESPONSE became the next prompt, unless the fuel ran out or the log dump at line 536 raised |
| Supervisor.ConverseFollowsScript | app.py:468-546 | the i-th follow-up is the planner's stripped answer to its (i+1)-th request; no agent turn but the last raised; the conversation ended `AgentFailed` exactly when the last turn's sampling loop raised, with that exception's text |
| Supervisor.WrittenFinalCloses | app.py:531-543 | a planner answer that spells FINAL RESPONSE anywhere, in any case, is the last follow-up if it is received at all, and the conversation closed after it unless the log dump raised |
| Supervisor.AgentFailureAsksNoPlanner | app.py:515-519 | after the sampling loop raises, the planner is not asked about that prompt: there are as many planner requests as prompts |
| Supervisor.ConverseFuelIndependent | app.py:468-555 | a conversation that ends within the bound is the whole conversation: a larger bound changes nothing |
| Supervisor.EmptyTurnReusesLast | app.py:513-526 | a turn whose sampling loop yields and raises nothing asks the planner about the value an earlier turn left in `message`; on the first turn there is none, and the turn stops on `UnboundLocalError` |
| Supervisor.EmptyFirstTurnCrashes | app.py:468-526 | when the first turn yields and raises nothing, the stream is the plan chunk alone and the conversation crashes on that `UnboundLocalError` |
| Supervisor.ConverseNeverReportsCrash | app.py:548-555 | as written, no chunk is a generic error chunk, even when an exception outside the agent turn ended the stream |
| Supervisor.CrashText | app.py:548-549 | the text `str(e)` of the exception that ended the conversation: a planner request that raised gives its own text |
| Supervisor.ConverseReported | app.py:548-555 | the stream with the handler repaired (`datetime.now()` at line 552, and a log dump that cannot raise): the conversation's own chunks come first, unchanged; when the first planner request raises e, the stream is exactly "data: Error: e" |
| Supervisor.ReportedCrashIsLastChunk | app.py:548-555 | with the handler repaired the same way, the stream ends in a generic error chunk exactly when such an exception ended it. That chunk carries the exception's text, which for a failed planner request is that request's error text, and no earlier chunk is a generic error chunk |
| Supervisor.SaysFinalWhenWritten | app.py:541 | an answer that spells FINAL RESPONSE anywhere, in any mix of upper and lower case, passes the closing test; WrittenFinalCloses carries this to the conversation |

## Left out

- The Gradio UI, its dropdown callbacks, the example catalogue and the screen selector (app.py:257-395). These are presentation and file I/O.
- The FastAPI app, CORS, uvicorn and the threads (app.py:397-413, 573-593). These are transport and process plumbing. The shared `SELECTED_SCREEN_INDEX` global is a concurrency concern.
- `process_input`, `yield_message` and `main` (app.py:99-102, 191-218, 237-254). These belong to the Gradio path, which is glue. `process_input` builds a `TextBlock` from the user input (app.py:201), which raises for a non-string input as the one at app.py:436 does. It then yields the generator `yield_message(state)` itself, paired with the state (app.py:205), and nothing in app.py iterates it, so this path never runs `accumulate_messages` or the relay. For the same reason the missing-key `ValueError` of app.py:239-240 never fires there; it could not fire on a freshly set-up state in any case, since `setup_state` stores the non-empty placeholder key (app.py:66-69).
- `validate_auth` (app.py:105-123), whose cloud branches call the boto3 and google-auth SDKs.
- `load_from_storage` and `save_to_storage` (app.py:126-148), which are filesystem I/O. Only their result enters, as `Env.storedPrompt`.
- `sampling_loop_sync`, `ToolResult`, `PROVIDER_TO_DEFAULT_MODEL_NAME`, OpenAI and Anthropic. These are external. They appear as the scripts `planner` and `agent`, the parameters `show` (Python's `str`), `truthy` and `decode`, and the table in `Env`.
- The print of "API key not found" (app.py:70-71), which has no effect on the state.
- The contents of the message list handed to the sampling loop and of the conversation log. The model records the prompts appended and the agent values logged. `json.dumps` succeeding on the log is the parameter `jsonable`.
- Overwriting `api_key` with the header value (app.py:430), and the message list that the user message is appended to (app.py:433-439), in `process_input_api`. These only change the state passed to the unseen sampling loop. The `TextBlock` built there is modelled: it raises for a user input that is not a string.
- Reading the request body (`await request.json()`, app.py:416-417) is left out, and so are its failure on a malformed body and the `AttributeError` of `data.get` on a body that is not a JSON object. Both run before the 401 test of app.py:420, so such a request fails there even without a key; the 401 clause of Relay.ProcessInputApi holds for a readable JSON-object body. The model starts from the value `data.get("user_input")` returns.
- Relay.ProcessInputApi: JSON numbers with a fraction are not among the model's values, and the input check follows pydantic 2, which does not turn a number into a string.
- Timestamps (`datetime.now()` in the callback) are a parameter. Console printing is left out.
- Supervisor.Loop: the source loop has no bound. `fuel` caps the agent turns, and running out is the model-only end `Exhausted`. LoopFuelIndependent and ConverseFuelIndependent show that the bound never changes a conversation that ends within it.
- Text.UpperChar: Python's full Unicode case mapping is replaced by ASCII letters plus the non-ASCII characters whose upper-case form contains an ASCII letter (ß, ı, ſ, ŉ, ǰ, ẖ–ẚ and the Latin ligatures). Any other character is kept. Its real upper-case form has no ASCII letter, so it could not take part in matching "FINAL RESPONSE" either.
- Relay.Unframe: a Server-Sent-Events client also splits a payload at each line break (the plan and follow-up chunks of app.py:485 and 533 hold one), so what it shows is those lines, not the payload itself. The model stops at the payload.
- Supervisor.CrashText: only a failed planner request has its text fixed. For the other causes the wording is the interpreter's (the repr of a `KeyError`'s key, the message of `UnboundLocalError` or of `json.dumps`'s `TypeError`), which varies with the Python version, so it is the parameter `describe`.
- Supervisor.ConverseReported: repairing only line 552 would still lose the error chunk whenever the log holds a value `json.dumps` rejects, because the handler dumps the log again at lines 551-554. The model assumes a dump that cannot raise.
- Render.RenderMessage: a failing `base64.b64decode` (invalid input) is not modelled; `decode` is total.
- Relay.MessageGenerator: `show` (Python's `str` on a yielded value) is total. An exception from `str(message)` at app.py:456 would be raised inside the `try` and become the final "data: Error: …" chunk; that case is not modelled.
- Supervisor.Converse: exceptions from `setup_state` other than the model lookup's (none exist in app.py) and from `str()` on a yielded value are not modelled.

## Findings

| source | as written | input that shows it | evidently intended | confidence | as-written member | corrected member |
|---|---|---|---|---|---|---|
| app.py:548-555 | The handler calls `datetime.datetime.now()`, but `datetime` is the class imported at line 10, so the handler raises `AttributeError` before yielding its error chunk | The first planner request raises (`planner(0) == Raises(e)`): the stream is empty, and the client never sees "data: Error: e" | Any exception outside the agent turn ends the stream with one "data: Error: …" chunk carrying the exception's text. This needs `datetime.now()` at line 552 and a log dump that cannot raise, since the log is dumped again there | not executed | Supervisor.ConverseNeverReportsCrash | Supervisor.ReportedCrashIsLastChunk |
