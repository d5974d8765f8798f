# Research assistant pipeline, modelled in Dafny

The LangChain research assistant answers a question in five steps. It asks a chat
model for arXiv search queries and decodes the reply with `json.loads`. It
retrieves arXiv abstracts for each query. It has each abstract summarised against
its query and renders each summary as `Title: …\n\nSUMMARY: …`. It collapses all
the summaries into one context string. Finally it asks the chat model for a
report on that context and the original question.

This project models the deterministic part of that pipeline. The chat model, the
retriever and `json.loads` are opaque functions held in one `Services` value.
The model covers how the LangChain runnables compose:

- `RunnablePassthrough.assign` keeps the input dict and sets one key.
- `.map()` applies a stage to every element, in order. When the stage is a
  sequence of steps, it runs one step over every element before the next step
  starts. So when several elements fail, the error raised belongs to the
  earliest step that fails.
- a prompt template fails when one of its slots is missing from the input dict.

The model also covers the summary formatter, the fan-out lambdas and
`collapse_list_of_lists`. Errors are values (`Results.Result`). No composition
in the source catches anything, so the first failure ends the whole chain.

Files:

- `Results.dfy`: the error kinds and `Result`.
- `Text.dfy`: Python's `str.join` (`Join`) and where each part and separator of a join lies.
- `Aggregate.dfy`: `collapse_list_of_lists`. It has a specification function `Collapse` and the source's loop as the method `CollapseListOfLists`.
- `Runnables.dfy`: Python dicts as `map<string, Value>`, plus `Assign`, `MapEach` (`.map()` over a one-step stage) and `FillSlots` (prompt slots).
- `Research.dfy`: `scrape_and_summarize_chain`, `web_search_chain`, `full_research_chain` and `chain`, with lemmas on their shape, provenance and failures.

Some behaviour a reader might expect is not in app.py, and the model follows app.py:

- **Failures.** One might expect a failed retrieval or summary to be recorded and
  skipped. app.py has no such isolation, so one failed retrieval aborts the chain
  (`Research.FailedRetrievalAbortsChain`).
- **Empty batches.** One might expect every summary to be separated from the next
  by exactly one blank line. app.py joins batch by batch. An empty batch in the
  middle therefore leaves two blank-line separators in a row, and an empty first
  or last batch leaves a blank line at the start or the end
  (`Aggregate.CollapseKeepsEmptyBatch` and the lemmas next to it).
- **Query replies.** One might expect an unparseable query list to be retried.
  app.py has no retry (`Research.BadQueryReplyAbortsChain`).

## Model

| member | source | states |
|---|---|---|
| `Text.Join` | app.py:93-94 | `sep.join(parts)` has length = sum of part lengths + (n-1) separators; no parts give "" |
| `Text.JoinPartAt` | app.py:93-94 | in a join, part k lies at offset (length of parts before k + k separators), so parts keep their order |
| `Text.JoinSeparatorAt` | app.py:93-94 | exactly one separator follows every part except the last |
| `Text.JoinAppend` | app.py:93-94 | joining xs ++ ys (both non-empty) is join(xs) + sep + join(ys) |
| `Aggregate.CollapseListOfLists` | app.py:90-94 | the source's loop (append each joined batch to `content`, then join `content`) returns `Collapse`: each batch joined with a blank line, then the batches joined with a blank line |
| `Aggregate.CollapseBaseCases` | app.py:90-94 | no batches give ""; one batch of one summary gives that summary unchanged |
| `Aggregate.CollapseAppend` | app.py:90-94 | batch order is kept: collapse(front ++ back) = collapse(front) + blank line + collapse(back) |
| `Aggregate.CollapseKeepsEmptyBatch` | app.py:92-94 | an empty batch is joined as an empty segment, not skipped, so two blank lines appear in a row |
| `Aggregate.CollapseLeadingEmptyBatch` | app.py:92-94 | an empty first batch is joined as an empty segment, so the result starts with a blank line |
| `Aggregate.CollapseTrailingEmptyBatch` | app.py:92-94 | an empty last batch is joined as an empty segment, so the result ends with a blank line |
| `Aggregate.CollapseEmptyBatchExample` | app.py:92-94 | [["a"],[],["b"]] collapses to "a\n\n\n\nb", whereas joining all summaries flat would give "a\n\nb" |
| `Aggregate.CollapseIsFlatJoin` | app.py:90-94 | with no empty batch, collapsing equals joining every summary in batch order then in-batch order, one blank line between |
| `Aggregate.CollapseBatchAt` | app.py:90-94 | each batch's joined text sits at its own offset of the collapsed string, in batch order |
| `Runnables.Assign` | app.py:35-36 | `assign(key=stage)` fails exactly when the stage fails, with its error; otherwise the keys are the input keys plus `key`, `key` holds the stage's output, and every other key is unchanged |
| `Runnables.MapEach` | app.py:41 | `.map()` of one step succeeds exactly when every element succeeds; it then gives one output per input in input order; otherwise it fails with the error of the first failing element |
| `Runnables.FillSlots` | app.py:22-32 | a prompt template on a dict gives its slot values in slot order, or fails naming exactly the slots missing from the dict |
| `Research.SummaryFormat` | app.py:37 | gives exactly "Title: " + metadata Title + "\n\nSUMMARY: " + summary; KeyError for a missing `doc`, `Title` or `summary`, AttributeError when `doc` is not a document |
| `Research.SummaryFormatParts` | app.py:37 | the title and the summary can be read back from the formatted string at fixed offsets |
| `Research.ScrapeAndSummarizeSpec` | app.py:35-37 | the summary chain succeeds exactly when the generation call on (doc, question) succeeds and the doc has a Title; the output is built from that title and generated text; a generation error surfaces unchanged |
| `Research.ScrapeBatchSpec` | app.py:35-37 | `scrape_and_summarize_chain.map()` runs the `summary` step on every record before formatting any. It succeeds exactly when every record can be summarised, and then agrees record by record with the single-record chain. If any generation call fails, that first failing call's error is raised, even when an earlier record has no Title |
| `Research.DocRecords` | app.py:41 | one {question, doc} record per retrieved document, in order, each carrying the unchanged question; a missing `docs` is a KeyError; `question` is read only when there is a document |
| `Research.WebSearchSpec` | app.py:39-41 | the search chain succeeds exactly when retrieval succeeds and every document is titled and summarised; it then gives one summary per document in retrieval order, each made from the unchanged question; a retrieval error aborts it unchanged |
| `Research.WebSearchBatchSpec` | app.py:39-41 | `web_search_chain.map()` runs every retrieval, then every fan-out, then every summary batch. It succeeds exactly when every query's search succeeds, and then agrees query by query with the single-query chain. If any retrieval fails, the first failing retrieval's error is raised |
| `Research.QueryRecords` | app.py:58 | one {"question": q} record per parsed query, in query order, with no other key |
| `Research.FullResearchSpec` | app.py:56-58 | succeeds exactly when planning, decoding and every query's search succeed; it then gives one batch per query in query order, batch i has one summary per document retrieved for query i, built from that document and query i |
| `Research.FailedRetrievalIsReported` | app.py:40-41 | if the search fails for some planned query, the research chain fails with the error of the first such query, whatever the summary calls for other queries would do |
| `Research.CountsAddUp` | app.py:41 | when batch i has as many summaries as query i retrieved documents, the batches hold as many summaries in all as the queries retrieved documents in all |
| `Research.TotalSummaries` | app.py:41 | the total number of summaries equals the total number of documents retrieved across the queries |
| `Research.ChainSpec` | app.py:97-99 | the report prompt gets the caller's dict unchanged plus only `research_summary` (the collapsed batches) and the original question; a research failure is the chain's error and no report is generated |
| `Research.FailedRetrievalAbortsChain` | app.py:40-41 | a failed retrieval for any one planned query fails the whole chain; there is no partial-failure isolation |
| `Research.BadQueryReplyAbortsChain` | app.py:56 | a reply that `json.loads` refuses fails the whole chain with that error; nothing is retried |

## Left out

- The chat model endpoint, its construction and its calls (app.py:14-20): these are network inference. They are the opaque functions `summarize`, `planQueries` and `writeReport` of `Research.Services`, which may fail.
- `ArxivRetriever.get_summaries_as_docs` (app.py:21, app.py:40): a network search, modelled as the opaque `retrieve`.
- The internals of `json.loads` (app.py:56): modelled as the opaque partial `decodeQueries` from the reply to a list of strings. JSON that decodes to something other than a list of strings (a dict, a string, a number) is not modelled separately; such a reply counts as a decode failure.
- The prompt texts and how a template renders its slot values into text (app.py:22-32, app.py:43-54, app.py:60-87). The generation functions receive the slot values themselves. Only the check that every slot is present is modelled.
- FastAPI, `add_routes`, uvicorn and `load_dotenv` (app.py:6-12, app.py:102-116): these are server and process plumbing.
- The concurrent execution of `.map()` is left out. `MapEach` gives the in-order result that LangChain collects. Within one step every element runs even when one fails, but that has no effect in a model without side effects. A later step runs only when every element got through the earlier one (`Research.ScrapeBatch`, `Research.WebSearchBatch`).
- `Research.SummaryFormat`: a `summary` value that is not text is reported as a TypeError here, whereas Python's f-string would render it. In the pipeline `summary` is always the generated text.
- `Research.DocRecords`: a `docs` value that is not a list of documents is reported as a TypeError here, whereas Python would iterate over it (a string's characters, for instance). In the pipeline `docs` is always the retriever's list.
- `StrOutputParser` is part of the opaque generation functions.
