# CarloBot chat core in Dafny

CarloBot is a Flask chatbot that answers questions from a document store
through large language models. Each browser session has a record in the
dictionary `chat_histories`. The record holds a rolling conversation summary,
a busy flag `wait`, and the time of the last request.

A chat turn works as follows:
- It touches the record and waits until no summary update is pending.
- It snapshots the summary and streams an answer.
- It starts a background update. The update regenerates the answer, drains it, strips it and asks a summarizer model for the new summary.

A scheduled reaper deletes the records of idle sessions.

The query processor makes these decisions:
- It classifies the question. A label that reads "basic conversational phrases" after `strip()` and `lower()` routes the question to a greeting prompt without retrieval.
- Otherwise the question is rephrased when there is a summary. The rephraser's reply is read as JSON. Failing that, the text inside the match of `".*"` is used: it runs from the first quote that has a later quote on its line to the last quote of that line. Failing both, the reply is taken raw.
- The question is answered from the retrieved passages, joined by blank lines, with one of three canned fallback answers.
- The summary prompt is the first-turn or the follow-up template, depending on `summary.strip()`.
- A new knowledge-base entry is appended as `-* question` followed by the answer.

The project has three modules:
- `Text` (`text.dfy`) holds the pieces of Python's string library used here: `strip()` with Python's whitespace set, `lower()`, `join`, accumulation with `+=`, and the leftmost-longest search `re.search('".*"', s)`.
- `Processor` (`processor.dfy`) has pure functions over an abstract `Backends` value. That value holds the four models, the retriever and the JSON field reader as uninterpreted functions. Prompts are values that name their template and carry its arguments.
- `App` (`app.dfy`) has the classes `Session` (one record) and `Store` (the dictionary). Records are objects, so a background update holds the same record the store holds, as it does in Python.

The clock reading is the parameter `now`. The random fallback choice is the parameter `pick`. A concurrent run is an interleaving of the store's methods. Waiting for a pending update appears as the precondition of `StreamData`.

## Model

| member | source | states |
|---|---|---|
| Text.StripBlank | utils/processor.py:114 | `strip()` yields the empty string exactly when the text is all whitespace |
| Text.StripOfPadded | utils/processor.py:94 | `strip()` removes exactly the surrounding whitespace and returns the unpadded middle |
| Text.StripSplit | utils/processor.py:94 | every text is its stripped form with whitespace before and after |
| Text.StripIdempotent | utils/processor.py:115 | stripping twice is stripping once |
| Text.StripLowerCommute | utils/processor.py:164 | `strip()` and `lower()` commute |
| Text.LowerIdempotent | utils/processor.py:164 | lower-casing twice is lower-casing once |
| Text.JoinAppend | utils/processor.py:140 | joining one more part appends the separator and the part |
| Text.ConcatAppend | app.py:46-47 | one more `+=` appends the chunk to the accumulated text |
| Text.ConcatIsEmptyJoin | app.py:45-47 | accumulating with `+=` from `''` gives the chunks joined in order with nothing between |
| Text.FindQuoted | utils/processor.py:131 | the span found starts at the leftmost quote that has a later quote on its line, ends at that line's last quote, and no earlier match exists; no span means no match at all |
| Text.QuotedText | utils/processor.py:131-133 | a result exists iff `".*"` matches; the result is the text strictly inside the leftmost-longest match and holds no newline |
| Processor.Generate | utils/processor.py:144-147 | the reply is streamed exactly when the `stream` flag is set |
| Processor.GenerateChatSummary | utils/processor.py:113-119 | the summarizer answers the first-turn prompt (question, stripped response) when the summary is all whitespace, else the follow-up prompt (stripped summary, question, stripped response) |
| Processor.SummaryReadsStrippedInputs | utils/processor.py:114-117 | the new summary depends on the response and the prior summary only through their stripped forms |
| Processor.SummaryPrompt | utils/processor.py:113-117 | the follow-up template is chosen iff the summary is not all whitespace, with the stripped summary (never empty); otherwise the first-turn template; the response is always stripped |
| Processor.ExtractStandalone | utils/processor.py:124-135 | a parsed JSON field wins; otherwise the leftmost-longest quoted span's inside, without newlines, when a span exists; otherwise the reply unchanged |
| Processor.RephraseQuestion | utils/processor.py:121-136 | the rephraser is asked with the summary as chat history; a JSON field read from its reply wins, else the inside of the reply's leftmost-longest quoted match (no newline), else the reply unchanged |
| Processor.GetAnswer | utils/processor.py:138-148 | the docs are exactly the retrieved passages; the prompt's context is them joined by `"\n\n"`; the fallback is one of the three canned answers; the stream flag is honoured |
| Processor.GetGreetingsAnswer | utils/processor.py:150-156 | the docs list is empty and the stream flag is honoured |
| Processor.ClassifyQuery | utils/processor.py:158-161 | the label is the classifier model's reply to the classification prompt for the query; a composition with no contract of its own, whose use is stated by `RespondToQuery` and the routing lemmas |
| Processor.RespondToQuery | utils/processor.py:163-177 | a greeting label gives the greeting answer with no docs; otherwise the original question is answered when the summary is empty, the rephrased question when it is not |
| Processor.GreetingLabelIgnoresPadding | utils/processor.py:164-167 | whitespace around the label never changes the route |
| Processor.GreetingLabelIgnoresCase | utils/processor.py:164-167 | ASCII case in the label never changes the route |
| Processor.GreetingRouteSkipsRetrieval | utils/processor.py:164-168 | on the greeting route the result has no docs and does not depend on the retriever, the rephraser or the JSON reader |
| Processor.EmptySummarySkipsRephrase | utils/processor.py:170-173 | with an empty summary the original question is retrieved for, whatever the rephraser and the JSON reader do |
| Processor.BlankSummaryTreatedTwoWays | utils/processor.py:170-171 | a whitespace-only summary triggers rephrasing, yet the summary prompt treats it as no summary |
| Processor.AddNewQa | utils/processor.py:87-101 | the text written is the stripped old text (empty without a file), `"\n\n-* "`, the question, `"\n"` and the answer; the old stripped text is a prefix; the indexed text is question, newline, answer, and ends the file text |
| Processor.AddNewQaAppendsEntry | utils/processor.py:94-98 | if the stripped file is its entries separated by blank lines, then after adding an entry whose answer ends in non-whitespace it is those entries plus the new one, last |
| App.Sweep | app.py:56-63 | no remaining record is idle for longer than the limit, every other record is kept unchanged (including one exactly at the limit), and no key is added |
| App.SweepIdempotent | app.py:57-63 | a second sweep at the same time changes nothing |
| App.RecordsOfKept | app.py:60-63 | keeping the sessions that are not idle keeps exactly the records a sweep keeps |
| App.TouchedSurvivesSweep | app.py:88 | a record touched at `now` survives, unchanged, a sweep at `now` with a non-negative limit |
| App.GenerateData | app.py:37-39 | the streamed chunks of `respond_to_query` with the default chunk count; a composition whose routing is stated by `Processor.RespondToQuery` |
| App.NextSummary | app.py:44-50 | the summarizer on the stripped, in-order concatenation of the regenerated stream and the stored summary; a composition whose properties are proved through `App.SummarizeTurn`, `Processor.GenerateChatSummary` and `Processor.SummaryPrompt` |
| App.AccumulateChunks | app.py:45-47 | the drained text is all chunks in order |
| App.SummarizeTurn | app.py:44-50 | the new summary is the summarizer on the question, the stripped concatenation of the regenerated stream, and the summary stored at that time |
| App.Session.constructor | app.py:75 | a new record has an empty summary, is not busy and carries the current time |
| App.Store.constructor | app.py:24 | the store starts empty |
| App.Store.Index | app.py:69-76 | the id gets a fresh record (empty summary, not busy, time now); no other key or record changes |
| App.Store.Arrive | app.py:84-88 | an absent id gets a fresh record, an existing one keeps its summary and busy flag; the record's time becomes now; nothing else changes |
| App.Store.Touch | app.py:88 | only the time of that session's record changes, to now |
| App.Store.StreamData | app.py:78-97 | once the record is not busy, the snapshot is the stored summary (empty for a new id) and the answer stream is generated from it; the store changes as in `Arrive` |
| App.Store.BeginSave | app.py:42-43 | an absent id yields nothing and changes nothing; otherwise that record is marked busy and nothing else changes |
| App.Store.FinishSave | app.py:44-52 | the record's new summary is computed from the summary stored at that time, not the snapshot; the busy flag is cleared; only that record changes |
| App.Store.CommitSummary | app.py:51-52 | the summary is replaced and the busy flag cleared; the time and all other records are kept |
| App.Store.SaveHistory | app.py:41-52 | only the session's own record changes: summary updated from the stored one, not busy, time kept; an absent id changes nothing |
| App.Store.ReapIdleSessions | app.py:65-66 | the scheduled job sweeps with the 3600-second default |
| App.Store.ClearChatHistory | app.py:56-63 | the store afterwards holds exactly the sweep of its records before; no record object is added |

## Left out

- Concurrency is left out: threads, the `while history["wait"]: sleep(1)` polling loop, and the background scheduler (app.py:7, 65-67, 89-91, 95-96). An interleaving of the store's methods stands for a concurrent run.
- App.Store.StreamData: the polling loop is replaced by the precondition that the record is not busy, so the method does not model the waiting itself.
- The race between starting the update thread (app.py:96) and its marking the record busy (app.py:43) is not modelled. A request arriving in that window passes the wait and reads the old summary. The model can replay it only as `StreamData` before `BeginSave`.
- App.Store.SaveHistory: a failed summary update is not modelled. `save_history` (app.py:41-52) has no `try`/`finally`. If generation (app.py:44), the stream (app.py:46) or the summarizer (utils/processor.py:118) raises after the record is marked busy (app.py:43), the thread dies and `wait` stays true. Every later request for that session then polls forever at app.py:89-91. The prompt-template `KeyError` noted below makes this happen on every answer as written. The model's `Backends` functions are total, so `FinishSave` and `SaveHistory` always clear the busy flag. In the model a failed update is `BeginSave` with no `FinishSave`, after which `StreamData`'s precondition never holds again for that session.
- App.Store.SaveHistory: states the effect on the session's own record and leaves everything else to its `modifies` frame, rather than as an equation on the whole store. An absent id raises `KeyError` in a thread that just dies; the model changes nothing.
- The language models, the retriever (utils/retriever.py is not part of this model) and `json.loads(...)["Standalone question"]` are uninterpreted functions in `Processor.Backends`. A JSON value that is not a string is not distinguished.
- `np.random.randint` is the parameter `pick`, and `time.time()` is the parameter `now`. Time is a real number, not a floating-point value.
- Prompt rendering with `.format` (utils/prompts.py is not part of this model) is left out. Prompts are datatype values. The `KeyError` those templates raise for their missing `botname`/`fullname` fields is not modelled.
- File reads and writes are left out. `Processor.AddNewQa` takes the old file content as an option (None for no file) and returns the text to write and the text to index.
- Document loading, `create_vector_embedding` and the `RecursiveCharacterTextSplitter` chunking are left out.
- Logging is left out: the `print` calls at app.py:53, utils/processor.py:130, 165-166 and 174-176, and the `log` flag of `respond_to_query` and `generate_data`, which only switches that printing.
- App.GenerateData: the answer is generated twice per turn, once for the caller (app.py:97) and again in the background update (app.py:44), and in the source the two replies may differ. The `Backends` functions are deterministic, so in the model the two are equal whenever `pick` is equal. No property here relies on that.
- `change_llm_config` is left out, since it only swaps the main model.
- The web layer is left out: Flask routing, templates, login and logout, uuid generation, and the error page at app.py:126.
- Text.Lower: lower-cases ASCII letters only. Python's `str.lower()` also maps other letters, some of them to ASCII (the Kelvin sign to `k`). A label written with such letters routes differently here.
- The order in which the reaper visits the keys is left open, because it does not change the result.
