# Text-rewriting API core, in Dafny

This project models the in-memory core of the andikar text-rewriting API:

- **Rewrite service** (`OpenAIService`). It holds a round-robin rotation over a copied list of API keys. Every outbound chat-completion call takes the key under the cursor, and the cursor then steps forward modulo the pool size. `rewrite_text` always calls out. `rewrite_text_chunk` returns whitespace-only text unchanged without taking a key. `process_text_batch` maps the chunk rewrite over a list of texts, in order.
- **Document pipeline** (`DocumentProcessor`). Paragraphs are rewritten in consecutive batches of `PROCESSING_BATCH_SIZE` = 5. Blank paragraphs pass through untouched. The output documents keep only the non-blank paragraphs. `clean_text` asks for a "cleanup" rewrite of the rewritten text and falls back to that text when the call fails.
- **Job table** (`QueueService`). It is a queue plus two dictionaries, job id to status and job id to result. `add_job` writes PENDING and `set_job_result` writes COMPLETED. An unknown id reads back as FAILED, with no result.
- **Route handlers** (`app/api/routes/dcoument.py`):
  - one text, rewritten and then cleaned;
  - a batch of texts, zipped into one response per text;
  - a text split on blank lines, with each non-blank paragraph rewritten and the rewrites joined again;
  - the job-status query, which shows files only for a completed job.

  Every exception inside a text handler becomes an HTTP 500 error whose detail is the exception message.
- **User store** (`AuthService`). `create_user` rejects a registered email and adds exactly one record. `authenticate_user` checks the password against the stored hash and stamps `last_login`. There is also a lookup by API key.

The model's pieces:

- **The provider.** The chat-completion provider is a total function `Provider` from a request (key, system message, user prompt) to `Ok(answer)` or `Err(message)`. `Err` stands for the exception the client raises.
- **Gathered lists.** `asyncio.gather` over a list is an in-order map, specified by `OpenAI.Outcomes` and `OpenAI.Gather`. Every coroutine takes its key before its first suspension, so every non-blank item of a gathered list consumes a key, even when another item fails.
- **The key history.** `OpenAIService` carries a ghost history `issued` of the keys handed out. Its invariant says this history is the round-robin sequence from the first key, and that the cursor is where that sequence leaves it.
- **Python's string rules.** `Text` models `str.isspace`, `not s.strip()`, left-to-right non-overlapping `str.split`, and `str.join`.
- **Dictionary order.** The user dictionary keeps its insertion order, because `next(...)` over `users_db.values()` returns the first match in that order.

What the code does not do, and so the model does not do either:

- The code has no rate limiter; `MAX_REQUESTS_PER_MINUTE` is never read.
- One failed rewrite fails the whole gathered list and the handler's request. Failed segments are not skipped.
- The job table never writes PROCESSING or FAILED.
- An id with no stored status reads back as FAILED. There is no separate "not found" answer.

## Model

| member | source | states |
|---|---|---|
| OpenAI.PromptEndsWithText | app/services/openai_service.py:22-24 | The user prompt (`Rewrite as a scholar:` or `Rewrite in <style> style:`, also line 48) ends with a blank line followed by the text itself |
| OpenAI.Advance | app/services/openai_service.py:10-14 | The cursor after any number of steps from a position inside the pool stays inside the pool |
| OpenAI.AdvanceAdd | app/services/openai_service.py:14 | Taking a steps and then b steps leaves the cursor where a+b steps do |
| OpenAI.AdvanceWithin | app/services/openai_service.py:14 | At most one full rotation moves the cursor to c+k, or to c+k-n once it wraps past the end |
| OpenAI.RoundRobin | app/services/openai_service.py:12-15 | k calls from a fresh service hand out exactly k keys |
| OpenAI.RoundRobinAt | app/services/openai_service.py:12-15 | Call j hands out the key at the position the cursor reaches after j steps from 0 |
| OpenAI.FullRotation | app/services/openai_service.py:12-15 | From cursor 0, len(keys) calls return every key once in list order, and the next call returns keys[0] again |
| OpenAI.RotationAt | app/services/openai_service.py:12-15 | Call k+j hands out the key j places after the cursor's position after k calls, wrapping around |
| OpenAI.WindowIsRotation | app/services/openai_service.py:12-15 | Any len(keys) consecutive calls hand out each key exactly once, as the list rotated to the cursor |
| OpenAI.OutcomesKeys | app/services/openai_service.py:62-65 | After m keys have been handed out, non-blank item i of a batch is sent with call number m + (non-blank texts before i) of the round-robin rotation from the first key, so a batch continues the rotation without skipping or repeating a key |
| OpenAI.OutcomesAppend | app/services/openai_service.py:62-65 | Mapping a+b equals mapping a, then mapping b from where a left the rotation |
| OpenAI.Gather | app/services/openai_service.py:62-66 | Succeeds iff every item succeeds, returning every value in order; otherwise reports an item's error, with all items before it successful |
| OpenAI.GatherAppend | app/services/document_processor.py:25-28 | Gathering a+b equals gathering a and then b, concatenating the values; the error is a's if a fails |
| OpenAI.BatchResult | app/services/openai_service.py:57-66 | On success the batch has one item per text, in order; blank texts come back verbatim; every other item is the provider's answer; the batch fails iff some non-blank text's call fails |
| OpenAI.OpenAIService.constructor | app/services/openai_service.py:8-10 | The key list is the given copy, the cursor starts at 0, no key has been issued |
| OpenAI.OpenAIService.NextKey | app/services/openai_service.py:12-15 | Returns keys[cursor], moves the cursor to (cursor+1) mod len(keys), keeps it in range, and leaves the key list unchanged |
| OpenAI.OpenAIService.RewriteText | app/services/openai_service.py:17-31 | Always consumes exactly one key, even for blank text, and returns the provider's answer to the scholar prompt |
| OpenAI.OpenAIService.RewriteTextChunk | app/services/openai_service.py:33-55 | Blank text is returned unchanged with the cursor untouched; other text takes exactly one key and is sent with the style prompt |
| OpenAI.OpenAIService.ProcessTextBatch | app/services/openai_service.py:57-66 | The result is the gather of the in-order map; the cursor advances once per non-blank text |
| Text.NonBlankMembers | app/api/routes/dcoument.py:116 | The blank filter keeps a piece iff it is in the input and is not blank; it never grows the list |
| Text.NonBlankAppend | app/services/document_processor.py:44-46 | Filtering a concatenation is the concatenation of the filtered parts, so the order is kept |
| Text.NonBlankKeepsClean | app/api/routes/dcoument.py:116 | A list with no blank piece passes the filter unchanged |
| Text.Split | app/api/routes/dcoument.py:116 | Splitting yields at least one piece, and the first piece is a prefix of the text |
| Text.SplitAtFirst | app/api/routes/dcoument.py:116 | The cut falls at the leftmost occurrence: the first piece is the text before it, and the rest is the split of the text after the separator |
| Text.SplitNoSep | app/api/routes/dcoument.py:116 | A text without the separator splits into a list holding only that text |
| Text.JoinSplit | app/api/routes/dcoument.py:116-125 | Joining the pieces of a split with the same separator gives back the text |
| Text.SplitPiecesFree | app/api/routes/dcoument.py:116 | No piece of a split contains the separator |
| DocumentProcessing.BatchesPartition | app/services/document_processor.py:23-24 | The slices concatenate back to the paragraphs, none is empty or longer than the batch size, and only the last may be shorter |
| DocumentProcessing.FlattenAppend | app/services/document_processor.py:28 | Extending with the concatenation of two lists of batches is extending with each in turn |
| DocumentProcessing.DocumentProcessor.constructor | app/services/document_processor.py:13-14 | The processor owns a fresh rewrite service over the given keys, starting at cursor 0 |
| DocumentProcessing.DocumentProcessor.ProcessParagraph | app/services/document_processor.py:37-40 | Blank text comes back unchanged without a call; other text goes through `rewrite_text` and takes one key |
| DocumentProcessing.DocumentProcessor.ProcessBatch | app/services/document_processor.py:24-27 | A batch is rewritten in order, item by item, and every non-blank paragraph takes a key |
| DocumentProcessing.DocumentProcessor.ProcessDocument | app/services/document_processor.py:17-35 | Succeeds iff every paragraph's rewrite succeeds. The original and processed documents are the non-blank paragraphs and rewrites, and the cleaned one equals the processed one. A failure reports the first error. The batches run are a prefix of the consecutive batches: all of them on success; on failure they stop right after the first batch whose gather fails. Each non-blank paragraph in them took one key, which fixes the final cursor |
| DocumentProcessing.DocumentProcessor.CreateDocument | app/services/document_processor.py:42-51 | The document holds exactly the non-blank paragraphs, in their order |
| DocumentProcessing.DocumentProcessor.CleanDocument | app/services/document_processor.py:53-55 | Cleaning a document returns it unchanged |
| DocumentProcessing.DocumentProcessor.CleanText | app/services/document_processor.py:57-68 | Sends the rewritten text (never the original) with style "cleanup"; on failure returns the rewritten text; blank text takes no key, other text takes exactly one |
| Jobs.QueueService.constructor | app/services/queue_service.py:8-11 | Starts with an empty queue and empty status and result tables |
| Jobs.QueueService.AddJob | app/services/queue_service.py:13-17 | Returns the fresh id, appends (id, content, filename) to the queue, marks it PENDING, leaves results and other ids untouched |
| Jobs.QueueService.SetJobResult | app/services/queue_service.py:22-24 | Stores the result and marks COMPLETED for that id only; the queue and all other ids are unchanged; only PENDING/COMPLETED are ever stored |
| Jobs.QueueService.GetJobStatus | app/services/queue_service.py:19-20 | Reads the stored status, and FAILED for an id with no stored status |
| Jobs.QueueService.GetJobResult | app/services/queue_service.py:26-27 | Reads the stored result, and None exactly when no result is stored for the id |
| Jobs.StatusReadBack | app/services/queue_service.py:19-27 | No status reads as PROCESSING; FAILED is read iff no status is stored for the id; a result is present iff the status is COMPLETED, so PENDING jobs and ids with no stored status have none |
| DocumentRoutes.ParagraphsOfText | app/api/routes/dcoument.py:116 | The kept paragraphs are exactly the non-blank pieces of the split on blank lines, none contains a blank line, and when no piece is blank joining them restores the text |
| DocumentRoutes.Responses | app/api/routes/dcoument.py:85-97 | One response per zipped triple in order, with original, rewritten and cleaned from position i and an equal time share; an empty batch gives no responses |
| DocumentRoutes.StatusResponse | app/api/routes/dcoument.py:24-34 | The response carries the id, the stored status and the fixed message; files appear only when the status is COMPLETED |
| DocumentRoutes.StatusShowsFiles | app/api/routes/dcoument.py:24-34 | A COMPLETED job shows its stored files; an id with no stored status shows FAILED and no files |
| DocumentRoutes.ProcessText | app/api/routes/dcoument.py:37-62 | A failed rewrite is a 500 error with its message; otherwise original = content, rewritten = the styled rewrite, cleaned = its cleanup or the rewrite on failure. The route's service takes one key iff the content is not blank; the processor's service takes one key iff the rewrite succeeded with non-blank text |
| DocumentRoutes.CleanAll | app/api/routes/dcoument.py:77-81 | Item i is the cleanup of rewrite i, or rewrite i itself when that cleanup call fails; the processor's service takes one key per non-blank rewrite |
| DocumentRoutes.ProcessTextBatch | app/api/routes/dcoument.py:65-105 | A failed rewrite is a 500 error and no cleanup runs, so the processor's keys are untouched. Otherwise there is one response per text, in order, with the text, its rewrite, the rewrite's cleanup and an equal time share, and the processor takes one key per non-blank rewrite. In both cases the route's service takes one key per non-blank text |
| DocumentRoutes.ProcessParagraphs | app/api/routes/dcoument.py:108-130 | The result is the rewrites of the kept paragraphs, one per paragraph, joined with a blank line; the cursor advances once per kept paragraph; a failure is a 500 error |
| Auth.FindFrom | app/services/auth_service.py:47 | Finds the first user, in insertion order, whose field matches, or reports that none does |
| Auth.AuthService.constructor | app/services/auth_service.py:12-13 | Starts with no users |
| Auth.AuthService.GetUserByApiKey | app/services/auth_service.py:55-56 | Returns a stored user holding the key, or None iff no stored user holds it |
| Auth.AuthService.CreateUser | app/services/auth_service.py:27-44 | A registered email gives "Email already registered" with nothing changed. Otherwise exactly one record is added under the new id, holding the email, the username, hash(password), an "sk-" key, active, usage 0 and no login. Emails stay unique |
| Auth.AuthService.AuthenticateUser | app/services/auth_service.py:46-53 | Returns None with nothing changed when no user has the email or the password does not verify; otherwise returns that user with last_login = now, and no other field or user changes |

## Left out

- The chat-completion call and the client construction are network I/O. They are the `Provider` parameter, so the model does not see the model name or the logging.
- The sampling temperatures 1.0 and 0.3 are floating-point values and are not modelled.
- The clock is a parameter. Elapsed times in the text routes are passed in as `real` values.
- python-docx reading and writing, `BytesIO` and `save`/`seek` are file I/O. A document is its list of paragraph texts.
- bcrypt hashing and verification are parameters (`hash`, `verify`). uuid4 generation is too: the fresh ids are passed in.
- `create_access_token` (JWT encoding with an expiry) is foreign crypto plus the clock. It is not modelled.
- The `process_document` route has an empty body (`pass`), so there is nothing to model.
- The route file uses names it never imports or defines: `asyncio`, `queue_service`, `Depends`, `UserInDB` and `get_current_user_from_api_key`. The handlers are modelled as if these resolve to the evident objects.
- FastAPI wiring, schemas, settings loading and the unused `ProcessPoolExecutor` are not modelled.
- OpenAI.Gather: reports the first failure in list order. The real `asyncio.gather` reports the first failure to complete.
- OpenAI.OpenAIService.ProcessTextBatch: the coroutines are modelled as running one after another, so concurrent interleaving is not modelled. The keys are still taken in list order, as the real event loop starts each coroutine up to its first suspension in order.
- OpenAI.OpenAIService.constructor: requires a non-empty key pool. With the default empty pool, the source fails with an index or division error on the first call. That crash is not modelled.
- Jobs.QueueService.AddJob: requires the new id to be unused, standing for uuid4 uniqueness.
- Auth.AuthService.CreateUser: requires the new user id to be unused, standing for uuid4 uniqueness.
- Auth.AuthService.AuthenticateUser: the user record is a value. The source mutates the shared record in place, so a copy returned earlier by another call would also see the new `last_login`. That aliasing is not modelled.
- DocumentRoutes.ProcessTextBatch: the per-item time share `total / len(texts)` is a real division. It is not rounded as a float.
- DocumentProcessing.DocumentProcessor.ProcessDocument: the module-level processor is shared by all requests. Another request may take keys from it between batches, because the loop suspends at each gather. The cursor arithmetic in the contract assumes no other request does.
- DocumentRoutes.ProcessText: the route's service and the processor are shared by all requests. The handler suspends between the rewrite and the cleanup. The contract's cleanup key, the processor's cursor as the call began, holds only if no other request takes a key in between.
- DocumentRoutes.ProcessTextBatch: the same sharing applies between the rewrite batch and the cleanup gather. The contract assumes no other request takes keys from either service while the handler runs.
- DocumentProcessing.DocumentProcessor.CleanDocument: the source returns the very same `BytesIO` object, so the processed and cleaned documents are one object. The model returns an equal value and does not capture that aliasing.
- Jobs.QueueService.GetJobResult: `dict.get` also answers None for a stored result that is itself None. The model keeps a stored result distinct from an absent one, so a None result is not modelled. Nothing in the source calls `set_job_result`, and the files map the status route expects is never None.
