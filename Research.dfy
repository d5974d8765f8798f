/** The research chain of the LangChain app: plan search queries, retrieve arXiv
    abstracts for each, summarise each abstract against its query, collapse the
    summaries into one context and write the report. The chat model, the
    retriever and json.loads are opaque functions held in `Services`. */
module Research {
  import opened Results
  import opened Text
  import opened Runnables
  import Aggregate

  /** The external calls, each of which may fail. A generation call receives the
      values of its prompt's slots in the order the template names them. */
  datatype Services = Services(
    summarize: (Value, Value) -> Result<string>,   // SUMMARY_PROMPT (doc, question) | chat_model | StrOutputParser
    retrieve: Value -> Result<seq<Doc>>,           // retriever.get_summaries_as_docs
    planQueries: Value -> Result<string>,          // search_prompt (question) | chat_model | StrOutputParser
    decodeQueries: string -> Result<seq<string>>,  // json.loads, on replies that decode to a list of strings
    writeReport: (Value, Value) -> Result<string>) // prompt (research_summary, question) | chat_model | StrOutputParser

  const SummarySlots: seq<string> := ["doc", "question"]
  const SearchSlots: seq<string> := ["question"]
  const ReportSlots: seq<string> := ["research_summary", "question"]

  // ---------------------------------------------------------------------------
  // scrape_and_summarize_chain

  /** `SUMMARY_PROMPT | chat_model | StrOutputParser()` on a record. */
  function SummaryCall(svc: Services, x: Record): Result<Value>
  {
    var slots :- FillSlots(SummarySlots, x);
    var s :- svc.summarize(slots[0], slots[1]);
    Ok(Text(s))
  }

  /** The lambda rendering a summarised record:
      f"Title: {x['doc'].metadata['Title']}\n\nSUMMARY: {x['summary']}". */
  function SummaryFormat(x: Record): (r: Result<string>)
    ensures r.Ok? <==> "doc" in x && x["doc"].DocValue? && "Title" in x["doc"].doc.metadata &&
                       "summary" in x && x["summary"].Text?
    ensures r.Ok? ==> r.value == "Title: " + x["doc"].doc.metadata["Title"] + "\n\nSUMMARY: " + x["summary"].text
    ensures "doc" !in x ==> r == Err(KeyError("doc"))
    ensures "doc" in x && !x["doc"].DocValue? ==> r == Err(AttributeError("metadata"))
    ensures "doc" in x && x["doc"].DocValue? && "Title" !in x["doc"].doc.metadata ==> r == Err(KeyError("Title"))
    ensures "doc" in x && x["doc"].DocValue? && "Title" in x["doc"].doc.metadata && "summary" !in x ==>
              r == Err(KeyError("summary"))
  {
    if "doc" !in x then Err(KeyError("doc"))
    else if !x["doc"].DocValue? then Err(AttributeError("metadata"))
    else if "Title" !in x["doc"].doc.metadata then Err(KeyError("Title"))
    else if "summary" !in x then Err(KeyError("summary"))
    else if !x["summary"].Text? then Err(TypeError("summary"))
    else Ok("Title: " + x["doc"].doc.metadata["Title"] + "\n\nSUMMARY: " + x["summary"].text)
  }

  /** Title and summary can be read back from a formatted summary: the title
      right after the "Title: " prefix, the summary as its tail. */
  lemma SummaryFormatParts(x: Record)
    requires SummaryFormat(x).Ok?
    ensures var s, title, summary := SummaryFormat(x).value, x["doc"].doc.metadata["Title"], x["summary"].text;
            |s| == 18 + |title| + |summary| &&
            s[..7] == "Title: " && s[7..7 + |title|] == title &&
            s[7 + |title|..18 + |title|] == "\n\nSUMMARY: " && s[18 + |title|..] == summary
  {
  }

  /** The first step of `scrape_and_summarize_chain`: assign `summary`. */
  function SummaryStep(svc: Services, x: Record): Result<Record>
  {
    Assign("summary", (z: Record) => SummaryCall(svc, z), x)
  }

  /** `scrape_and_summarize_chain` invoked on one record: assign `summary`, then format. */
  function ScrapeAndSummarize(svc: Services, x: Record): Result<string>
  {
    var y :- SummaryStep(svc, x);
    SummaryFormat(y)
  }

  /** `scrape_and_summarize_chain.map()` on a list of records. A mapped sequence is
      batched one step at a time: the `summary` step runs on every record, and only
      if all of them succeed does the formatting step run on every result. */
  function ScrapeBatch(svc: Services, records: seq<Record>): Result<seq<string>>
  {
    var summarized :- MapEach((z: Record) => SummaryStep(svc, z), records);
    MapEach(SummaryFormat, summarized)
  }

  /** When a record with a `doc` and a `question` can be summarised. */
  predicate Summarizable(svc: Services, x: Record)
  {
    "doc" in x && "question" in x &&
    svc.summarize(x["doc"], x["question"]).Ok? &&
    x["doc"].DocValue? && "Title" in x["doc"].doc.metadata
  }

  /** The summary chain succeeds exactly when the generation call succeeds and the
      document has a title; its output is the title and the generated text, and it
      fails with the generation error unchanged before anything is formatted. */
  lemma ScrapeAndSummarizeSpec(svc: Services, x: Record)
    ensures ScrapeAndSummarize(svc, x).Ok? <==> Summarizable(svc, x)
    ensures Summarizable(svc, x) ==>
              ScrapeAndSummarize(svc, x).value ==
              "Title: " + x["doc"].doc.metadata["Title"] + "\n\nSUMMARY: " + svc.summarize(x["doc"], x["question"]).value
    ensures "doc" !in x || "question" !in x ==>
              ScrapeAndSummarize(svc, x).Err? && ScrapeAndSummarize(svc, x).error.MissingVariables?
    ensures "doc" in x && "question" in x && svc.summarize(x["doc"], x["question"]).Err? ==>
              ScrapeAndSummarize(svc, x) == Err(svc.summarize(x["doc"], x["question"]).error)
  {
  }

  /** The mapped summary chain succeeds exactly when every record can be summarised,
      and then agrees record by record with the chain invoked on that record. When
      some generation call fails, the error raised is the first failing call's,
      even if an earlier record lacks a title: formatting never starts. */
  lemma ScrapeBatchSpec(svc: Services, records: seq<Record>)
    ensures ScrapeBatch(svc, records).Ok? <==> forall i :: 0 <= i < |records| ==> Summarizable(svc, records[i])
    ensures ScrapeBatch(svc, records).Ok? ==>
              |ScrapeBatch(svc, records).value| == |records| &&
              forall i :: 0 <= i < |records| ==>
                ScrapeBatch(svc, records).value[i] == ScrapeAndSummarize(svc, records[i]).value
    ensures (exists i :: 0 <= i < |records| && SummaryCall(svc, records[i]).Err?) ==>
              ScrapeBatch(svc, records).Err? &&
              exists i :: 0 <= i < |records| && SummaryCall(svc, records[i]).Err? &&
                          ScrapeBatch(svc, records).error == SummaryCall(svc, records[i]).error &&
                          forall j :: 0 <= j < i ==> SummaryCall(svc, records[j]).Ok?
  {
  }

  // ---------------------------------------------------------------------------
  // web_search_chain

  /** `lambda x: retriever.get_summaries_as_docs(x["question"])`. */
  function RetrieveDocs(svc: Services, x: Record): Result<Value>
  {
    if "question" !in x then Err(KeyError("question"))
    else
      var docs :- svc.retrieve(x["question"]);
      Ok(DocList(docs))
  }

  /** The record handed to the summary chain for one retrieved document. */
  function DocRecord(question: Value, d: Doc): Record
  {
    map["question" := question, "doc" := DocValue(d)]
  }

  /** `lambda x: [{"question": x["question"], "doc": u} for u in x["docs"]]`:
      `x["docs"]` is read first and `x["question"]` once per document. */
  function DocRecords(x: Record): (r: Result<seq<Record>>)
    ensures "docs" !in x ==> r == Err(KeyError("docs"))
    ensures r.Ok? <==> "docs" in x && x["docs"].DocList? && (|x["docs"].docs| == 0 || "question" in x)
    ensures r.Ok? ==> |r.value| == |x["docs"].docs| &&
                      forall i :: 0 <= i < |r.value| ==>
                        r.value[i].Keys == {"question", "doc"} &&
                        r.value[i]["question"] == x["question"] &&
                        r.value[i]["doc"] == DocValue(x["docs"].docs[i])
  {
    if "docs" !in x then Err(KeyError("docs"))
    else if !x["docs"].DocList? then Err(TypeError("docs"))
    else
      var docs := x["docs"].docs;
      if |docs| == 0 then Ok([])
      else if "question" !in x then Err(KeyError("question"))
      else Ok(seq(|docs|, i requires 0 <= i < |docs| => DocRecord(x["question"], docs[i])))
  }

  /** The first step of `web_search_chain`: assign `docs`. */
  function RetrieveStep(svc: Services, x: Record): Result<Record>
  {
    Assign("docs", (z: Record) => RetrieveDocs(svc, z), x)
  }

  /** `web_search_chain` invoked on one record: assign `docs`, make one record per
      document, then summarise them all with the mapped summary chain. */
  function WebSearch(svc: Services, x: Record): Result<seq<string>>
  {
    var y :- RetrieveStep(svc, x);
    var records :- DocRecords(y);
    ScrapeBatch(svc, records)
  }

  /** `web_search_chain.map()` on a list of query records, one step at a time:
      every retrieval, then every fan-out into records, then every mapped summary chain. */
  function WebSearchBatch(svc: Services, xs: seq<Record>): Result<seq<seq<string>>>
  {
    var retrieved :- MapEach((z: Record) => RetrieveStep(svc, z), xs);
    var recordLists :- MapEach(DocRecords, retrieved);
    MapEach((rs: seq<Record>) => ScrapeBatch(svc, rs), recordLists)
  }

  /** When the search chain for a question succeeds: retrieval succeeds and every
      retrieved document has a title and is summarised without error. */
  predicate SearchSucceeds(svc: Services, x: Record)
  {
    "question" in x && svc.retrieve(x["question"]).Ok? &&
    var docs := svc.retrieve(x["question"]).value;
    forall i :: 0 <= i < |docs| ==>
      "Title" in docs[i].metadata && svc.summarize(DocValue(docs[i]), x["question"]).Ok?
  }

  /** One formatted summary per retrieved document, in retrieval order, each made
      from the unchanged question; any failure fails the whole search. */
  lemma WebSearchSpec(svc: Services, x: Record)
    ensures WebSearch(svc, x).Ok? <==> SearchSucceeds(svc, x)
    ensures WebSearch(svc, x).Ok? ==>
              var docs, r := svc.retrieve(x["question"]).value, WebSearch(svc, x).value;
              |r| == |docs| &&
              forall i :: 0 <= i < |docs| ==>
                r[i] == "Title: " + docs[i].metadata["Title"] + "\n\nSUMMARY: " +
                        svc.summarize(DocValue(docs[i]), x["question"]).value
    ensures "question" in x && svc.retrieve(x["question"]).Err? ==>
              WebSearch(svc, x) == Err(svc.retrieve(x["question"]).error)
  {
  }

  /** The mapped search chain succeeds exactly when the search for every query
      record succeeds, and then agrees query by query with the chain invoked on
      that record. When some retrieval fails, the error raised is the first failing
      retrieval's, whatever the summary calls of other queries would have done. */
  lemma WebSearchBatchSpec(svc: Services, xs: seq<Record>)
    ensures WebSearchBatch(svc, xs).Ok? <==> forall i :: 0 <= i < |xs| ==> SearchSucceeds(svc, xs[i])
    ensures WebSearchBatch(svc, xs).Ok? ==>
              |WebSearchBatch(svc, xs).value| == |xs| &&
              forall i :: 0 <= i < |xs| ==> WebSearchBatch(svc, xs).value[i] == WebSearch(svc, xs[i]).value
    ensures (exists i :: 0 <= i < |xs| && RetrieveDocs(svc, xs[i]).Err?) ==>
              WebSearchBatch(svc, xs).Err? &&
              exists i :: 0 <= i < |xs| && RetrieveDocs(svc, xs[i]).Err? &&
                          WebSearchBatch(svc, xs).error == RetrieveDocs(svc, xs[i]).error &&
                          forall j :: 0 <= j < i ==> RetrieveDocs(svc, xs[j]).Ok?
  {
    var first := MapEach((z: Record) => RetrieveStep(svc, z), xs);
    forall i | 0 <= i < |xs|
      ensures WebSearch(svc, xs[i]).Ok? <==> SearchSucceeds(svc, xs[i])
    {
      WebSearchSpec(svc, xs[i]);
    }
    if first.Ok? {
      var second := MapEach(DocRecords, first.value);
      if second.Ok? {
        forall i | 0 <= i < |xs|
          ensures WebSearch(svc, xs[i]) == ScrapeBatch(svc, second.value[i])
        {
          assert RetrieveStep(svc, xs[i]) == Ok(first.value[i]);
          assert DocRecords(first.value[i]) == Ok(second.value[i]);
        }
      } else {
        var k :| 0 <= k < |first.value| && DocRecords(first.value[k]).Err?;
        assert RetrieveStep(svc, xs[k]) == Ok(first.value[k]);
        assert WebSearch(svc, xs[k]).Err?;
      }
    } else {
      var k :| 0 <= k < |xs| && RetrieveStep(svc, xs[k]).Err?;
      assert WebSearch(svc, xs[k]).Err?;
    }
  }

  // ---------------------------------------------------------------------------
  // full_research_chain

  /** `lambda x: [{"question": q} for q in x]`. */
  function QueryRecords(queries: seq<string>): (r: seq<Record>)
    ensures |r| == |queries|
    ensures forall i :: 0 <= i < |queries| ==> r[i].Keys == {"question"} && r[i]["question"] == Text(queries[i])
  {
    seq(|queries|, i requires 0 <= i < |queries| => map["question" := Text(queries[i])])
  }

  /** `search_question_chain | QueryRecords | web_search_chain.map()`: one batch
      of formatted summaries per planned query. */
  function FullResearch(svc: Services, x: Record): Result<seq<seq<string>>>
  {
    var slots :- FillSlots(SearchSlots, x);
    var reply :- svc.planQueries(slots[0]);
    var queries :- svc.decodeQueries(reply);
    WebSearchBatch(svc, QueryRecords(queries))
  }

  /** When `search_question_chain` yields a list of queries. */
  predicate Planned(svc: Services, x: Record)
  {
    "question" in x && svc.planQueries(x["question"]).Ok? &&
    svc.decodeQueries(svc.planQueries(x["question"]).value).Ok?
  }

  function PlannedQueries(svc: Services, x: Record): seq<string>
    requires Planned(svc, x)
  {
    svc.decodeQueries(svc.planQueries(x["question"]).value).value
  }

  /** The number of documents retrieved for the queries, counting a failed retrieval as none. */
  function RetrievedCount(svc: Services, queries: seq<string>): nat
  {
    if |queries| == 0 then 0
    else
      var found := svc.retrieve(Text(queries[0]));
      (if found.Ok? then |found.value| else 0) + RetrievedCount(svc, queries[1..])
  }

  /** The research chain succeeds exactly when planning succeeds and the search for
      every planned query succeeds. It then yields one batch per query in query
      order; batch i holds one summary per document retrieved for query i, each
      made from that document and query i. */
  lemma FullResearchSpec(svc: Services, x: Record)
    ensures FullResearch(svc, x).Ok? <==>
              Planned(svc, x) &&
              forall i :: 0 <= i < |PlannedQueries(svc, x)| ==>
                SearchSucceeds(svc, map["question" := Text(PlannedQueries(svc, x)[i])])
    ensures FullResearch(svc, x).Ok? ==>
              var queries, batches := PlannedQueries(svc, x), FullResearch(svc, x).value;
              |batches| == |queries| &&
              forall i :: 0 <= i < |queries| ==>
                svc.retrieve(Text(queries[i])).Ok? &&
                var docs := svc.retrieve(Text(queries[i])).value;
                |batches[i]| == |docs| &&
                forall j :: 0 <= j < |docs| ==>
                  batches[i][j] == "Title: " + docs[j].metadata["Title"] + "\n\nSUMMARY: " +
                                   svc.summarize(DocValue(docs[j]), Text(queries[i])).value
  {
    if Planned(svc, x) {
      var queries := PlannedQueries(svc, x);
      var records := QueryRecords(queries);
      assert FillSlots(SearchSlots, x).value[0] == x["question"];
      assert FullResearch(svc, x) == WebSearchBatch(svc, records);
      WebSearchBatchSpec(svc, records);
      forall i | 0 <= i < |queries|
        ensures WebSearch(svc, records[i]).Ok? <==> SearchSucceeds(svc, map["question" := Text(queries[i])])
        ensures WebSearch(svc, records[i]).Ok? ==>
                  var docs, r := svc.retrieve(Text(queries[i])).value, WebSearch(svc, records[i]).value;
                  |r| == |docs| &&
                  forall j :: 0 <= j < |docs| ==>
                    r[j] == "Title: " + docs[j].metadata["Title"] + "\n\nSUMMARY: " +
                            svc.summarize(DocValue(docs[j]), Text(queries[i])).value
      {
        assert records[i] == map["question" := Text(queries[i])];
        WebSearchSpec(svc, records[i]);
      }
    }
  }

  /** When the arXiv search fails for some planned query, the research chain fails
      with the error of the first such query, even if a summary call for an
      earlier query would have failed: all retrievals run before any summary. */
  lemma FailedRetrievalIsReported(svc: Services, x: Record)
    requires Planned(svc, x)
    requires exists i :: 0 <= i < |PlannedQueries(svc, x)| && svc.retrieve(Text(PlannedQueries(svc, x)[i])).Err?
    ensures FullResearch(svc, x).Err?
    ensures var queries := PlannedQueries(svc, x);
            exists i :: 0 <= i < |queries| && svc.retrieve(Text(queries[i])).Err? &&
                        FullResearch(svc, x).error == svc.retrieve(Text(queries[i])).error &&
                        forall j :: 0 <= j < i ==> svc.retrieve(Text(queries[j])).Ok?
  {
  }

  lemma {:induction false} CountsAddUp(svc: Services, batches: seq<seq<string>>, queries: seq<string>)
    requires |batches| == |queries|
    requires forall i :: 0 <= i < |queries| ==>
               svc.retrieve(Text(queries[i])).Ok? && |batches[i]| == |svc.retrieve(Text(queries[i])).value|
    ensures TotalLength(batches) == RetrievedCount(svc, queries)
  {
    if |queries| > 0 {
      CountsAddUp(svc, batches[1..], queries[1..]);
    }
  }

  /** The research chain yields as many summaries in all as documents were retrieved in all. */
  lemma TotalSummaries(svc: Services, x: Record)
    requires FullResearch(svc, x).Ok?
    ensures Planned(svc, x)
    ensures |Flatten(FullResearch(svc, x).value)| == RetrievedCount(svc, PlannedQueries(svc, x))
  {
    FullResearchSpec(svc, x);
    CountsAddUp(svc, FullResearch(svc, x).value, PlannedQueries(svc, x));
  }

  // ---------------------------------------------------------------------------
  // chain

  /** `full_research_chain | collapse_list_of_lists`. */
  function ResearchSummary(svc: Services, x: Record): Result<Value>
  {
    var batches :- FullResearch(svc, x);
    Ok(Text(Aggregate.Collapse(batches)))
  }

  /** The dict the report prompt is filled from. */
  function ReportInput(svc: Services, x: Record): Result<Record>
  {
    Assign("research_summary", (z: Record) => ResearchSummary(svc, z), x)
  }

  /** `chain`: assign `research_summary`, then fill the report prompt and generate. */
  function Chain(svc: Services, x: Record): Result<string>
  {
    var y :- ReportInput(svc, x);
    var slots :- FillSlots(ReportSlots, y);
    svc.writeReport(slots[0], slots[1])
  }

  /** The report prompt receives the caller's dict with every key unchanged and only
      `research_summary` added: the collapsed batches next to the original question.
      If the research fails, the chain fails with that error and writes no report. */
  lemma ChainSpec(svc: Services, x: Record)
    ensures FullResearch(svc, x).Err? ==> Chain(svc, x) == Err(FullResearch(svc, x).error)
    ensures FullResearch(svc, x).Ok? ==>
              "question" in x && ReportInput(svc, x).Ok? &&
              var y := ReportInput(svc, x).value;
              y.Keys == x.Keys + {"research_summary"} &&
              (forall k :: k in x && k != "research_summary" ==> y[k] == x[k]) &&
              y["research_summary"] == Text(Aggregate.Collapse(FullResearch(svc, x).value)) &&
              Chain(svc, x) == svc.writeReport(y["research_summary"], x["question"])
  {
  }

  /** Nothing isolates a failed retrieval: if the arXiv search fails for any one
      planned query, the whole chain fails and no report is written. */
  lemma FailedRetrievalAbortsChain(svc: Services, x: Record, i: nat)
    requires Planned(svc, x) && i < |PlannedQueries(svc, x)|
    requires svc.retrieve(Text(PlannedQueries(svc, x)[i])).Err?
    ensures Chain(svc, x).Err?
  {
  }

  /** A reply that json.loads refuses fails the whole chain with that error; nothing is retried. */
  lemma BadQueryReplyAbortsChain(svc: Services, x: Record)
    requires "question" in x && svc.planQueries(x["question"]).Ok?
    requires svc.decodeQueries(svc.planQueries(x["question"]).value).Err?
    ensures Chain(svc, x) == Err(svc.decodeQueries(svc.planQueries(x["question"]).value).error)
  {
  }
}
