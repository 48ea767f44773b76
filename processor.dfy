/**
 * The query processor: classification routing, question rephrasing with its
 * fallback extraction, retrieval context, summary prompt choice and the text
 * written to the knowledge base. The language models, the retriever and the
 * JSON reader are parameters (`Backends`); prompts are values, not rendered text.
 */
module Processor {
  import opened Text

  /** A prompt, named after its template; its fields are the template's arguments. */
  datatype Prompt =
    | QueryClassification(query: string)
    | Greetings(query: string)
    | Qa(context: string, question: string, fallbackResponse: string)
    | Rephrase(chatHistory: string, question: string)
    | FirstChatSummary(question: string, response: string)
    | ChatHistorySummary(summary: string, question: string, response: string)

  /** An answer produced with `invoke` (whole text) or with `stream` (its chunks, in order). */
  datatype Reply = Invoked(text: string) | Streamed(chunks: seq<string>)

  /** The pair `(answer, docs)` that the answering operations return. */
  datatype Response = Response(answer: Reply, docs: seq<string>)

  /**
   * The collaborators a processor talks to: its four language models, the
   * retriever `(query, k) -> top-k passages`, and `standaloneQuestion`, which
   * reads a text as JSON and yields its "Standalone question" field, or None
   * when the text is not JSON or has no such field.
   */
  datatype Backends = Backends(
    llmInvoke: Prompt -> string,
    llmStream: Prompt -> seq<string>,
    summaryLlm: Prompt -> string,
    questionLlm: Prompt -> string,
    flanLlm: Prompt -> string,
    retrieve: (string, nat) -> seq<string>,
    standaloneQuestion: string -> Option<string>)

  const DEFAULT_RESPONSES: seq<string> := [
    "Hmm.., I'm not sure I have the answer.",
    "Apologize that I have limited data access in addressing this question.",
    "Sorry, I can only the questions I have the data on."
  ]
  const DEFAULT_NUM_CHUNKS: nat := 2
  const CONTEXT_SEPARATOR: string := "\n\n"
  const GREETING_LABEL: string := "basic conversational phrases"
  /** The text put in front of the rephraser's reply before it is read as JSON. */
  const STANDALONE_JSON_PREFIX: string := "{\n\"Standalone question\": "
  const KB_SEPARATOR: string := "\n\n"
  const KB_ENTRY_MARKER: string := "-* "

  /** `invoke` or `stream` on the main model, as the `stream` flag asks. */
  function Generate(p: Backends, prompt: Prompt, stream: bool): (r: Reply)
    ensures r.Streamed? == stream
  {
    if stream then Streamed(p.llmStream(prompt)) else Invoked(p.llmInvoke(prompt))
  }

  // ---------------------------------------------------------------------------
  // generate_chat_summary
  // ---------------------------------------------------------------------------

  /** The summary prompt: the follow-up template when the stripped summary is non-empty. */
  function SummaryPrompt(question: string, response: string, summary: string): (pr: Prompt)
    ensures pr.ChatHistorySummary? <==> !AllSpace(summary)
    ensures pr.FirstChatSummary? <==> AllSpace(summary)
    ensures pr.question == question && pr.response == Strip(response)
    ensures pr.ChatHistorySummary? ==> pr.summary == Strip(summary) && pr.summary != ""
  {
    StripBlank(summary);
    if Strip(summary) != "" then
      ChatHistorySummary(Strip(summary), question, Strip(response))
    else
      FirstChatSummary(question, Strip(response))
  }

  /** The summarizer's reply to the prompt that `summary.strip()` selects. */
  function GenerateChatSummary(p: Backends, question: string, response: string, summary: string): (r: string)
    ensures AllSpace(summary) ==> r == p.summaryLlm(FirstChatSummary(question, Strip(response)))
    ensures !AllSpace(summary) ==> r == p.summaryLlm(ChatHistorySummary(Strip(summary), question, Strip(response)))
  {
    p.summaryLlm(SummaryPrompt(question, response, summary))
  }

  /** The summarizer sees the response and the prior summary only through their stripped forms. */
  lemma SummaryReadsStrippedInputs(p: Backends, question: string, response: string, summary: string)
    ensures GenerateChatSummary(p, question, response, summary)
         == GenerateChatSummary(p, question, Strip(response), Strip(summary))
  {
    StripIdempotent(response);
    StripIdempotent(summary);
    StripBlank(summary);
    StripBlank(Strip(summary));
  }

  // ---------------------------------------------------------------------------
  // rephrase_question
  // ---------------------------------------------------------------------------

  function StandaloneJson(response: string): string
  {
    STANDALONE_JSON_PREFIX + response
  }

  /**
   * The rephrased question recovered from the rephraser's reply: the JSON
   * field when the reply completes the JSON object, else the text inside the
   * match of `".*"`: from the first quote that has a later quote on its line
   * to the last quote of that line; else the reply itself.
   */
  function ExtractStandalone(parse: string -> Option<string>, response: string): (r: string)
    ensures parse(StandaloneJson(response)).Some? ==> r == parse(StandaloneJson(response)).value
    ensures parse(StandaloneJson(response)).None? && (exists i, j :: IsQuoteMatch(response, i, j)) ==>
      && '\n' !in r
      && exists i, j :: IsLeftmostLongest(response, i, j) && r == response[i + 1..j]
    ensures parse(StandaloneJson(response)).None? && (forall i, j :: !IsQuoteMatch(response, i, j)) ==>
      r == response
  {
    match parse(StandaloneJson(response))
    case Some(question) => question
    case None =>
      match QuotedText(response)
      case Some(quoted) => quoted
      case None => response
  }

  /** The rephraser is asked with the summary as chat history; its reply goes through the fallback chain. */
  function RephraseQuestion(p: Backends, question: string, summary: string): (r: string)
    ensures var reply := p.questionLlm(Rephrase(summary, question));
      && (p.standaloneQuestion(StandaloneJson(reply)).Some? ==> r == p.standaloneQuestion(StandaloneJson(reply)).value)
      && (p.standaloneQuestion(StandaloneJson(reply)).None? && (exists i, j :: IsQuoteMatch(reply, i, j)) ==>
            '\n' !in r && exists i, j :: IsLeftmostLongest(reply, i, j) && r == reply[i + 1..j])
      && (p.standaloneQuestion(StandaloneJson(reply)).None? && (forall i, j :: !IsQuoteMatch(reply, i, j)) ==>
            r == reply)
  {
    ExtractStandalone(p.standaloneQuestion, p.questionLlm(Rephrase(summary, question)))
  }

  // ---------------------------------------------------------------------------
  // get_answer, get_greetings_answer, classify_query, respond_to_query
  // ---------------------------------------------------------------------------

  /** Retrieves `numChunks` passages and answers from their joined text, with one of the canned fallbacks. */
  function GetAnswer(p: Backends, query: string, numChunks: nat, stream: bool, pick: nat): (r: Response)
    requires pick < |DEFAULT_RESPONSES|
    ensures r.docs == p.retrieve(query, numChunks)
    ensures r.answer.Streamed? == stream
    ensures exists k :: (0 <= k < |DEFAULT_RESPONSES| &&
      r.answer == Generate(p, Qa(Join(CONTEXT_SEPARATOR, r.docs), query, DEFAULT_RESPONSES[k]), stream))
  {
    var docs := p.retrieve(query, numChunks);
    var context := Join(CONTEXT_SEPARATOR, docs);
    var fallBackResponse := DEFAULT_RESPONSES[pick];
    Response(Generate(p, Qa(context, query, fallBackResponse), stream), docs)
  }

  function GetGreetingsAnswer(p: Backends, query: string, stream: bool): (r: Response)
    ensures r.docs == [] && r.answer.Streamed? == stream
  {
    Response(Generate(p, Greetings(query), stream), [])
  }

  function ClassifyQuery(p: Backends, query: string): string
  {
    p.flanLlm(QueryClassification(query))
  }

  /** The classifier's label names small talk, after `strip()` and `lower()`. */
  predicate IsGreetingLabel(queryClass: string) {
    Lower(Strip(queryClass)) == GREETING_LABEL
  }

  /** Small talk gets a greeting; otherwise the question, rephrased when there is a summary, is answered from retrieval. */
  function RespondToQuery(p: Backends, origQuery: string, summary: string, numChunks: nat, stream: bool, pick: nat): (r: Response)
    requires pick < |DEFAULT_RESPONSES|
    ensures r.answer.Streamed? == stream
    ensures IsGreetingLabel(ClassifyQuery(p, origQuery)) ==>
      r.docs == [] && r == GetGreetingsAnswer(p, origQuery, stream)
    ensures !IsGreetingLabel(ClassifyQuery(p, origQuery)) && summary == "" ==>
      r == GetAnswer(p, origQuery, numChunks, stream, pick)
    ensures !IsGreetingLabel(ClassifyQuery(p, origQuery)) && summary != "" ==>
      r == GetAnswer(p, RephraseQuestion(p, origQuery, summary), numChunks, stream, pick)
  {
    var queryClass := ClassifyQuery(p, origQuery);
    if IsGreetingLabel(queryClass) then
      GetGreetingsAnswer(p, origQuery, stream)
    else
      var query := if summary != "" then RephraseQuestion(p, origQuery, summary) else origQuery;
      GetAnswer(p, query, numChunks, stream, pick)
  }

  /** The routing decision reads the label up to surrounding whitespace. */
  lemma GreetingLabelIgnoresPadding(pre: string, queryClass: string, post: string)
    requires AllSpace(pre) && AllSpace(post)
    ensures IsGreetingLabel(pre + queryClass + post) <==> IsGreetingLabel(queryClass)
  {
    var w1, w2 := StripSplit(queryClass);
    var m := Strip(queryClass);
    Surround(queryClass, pre, w1, m, w2, post);
    AllSpaceConcat(pre, w1);
    AllSpaceConcat(w2, post);
    StripOfPadded(pre + w1, m, w2 + post);
  }

  /** The routing decision reads the label up to ASCII case. */
  lemma GreetingLabelIgnoresCase(queryClass: string)
    ensures IsGreetingLabel(Lower(queryClass)) <==> IsGreetingLabel(queryClass)
  {
    StripLowerCommute(queryClass);
    LowerIdempotent(Strip(queryClass));
  }

  /** On the small-talk route neither the rephraser, the JSON reader nor the retriever is consulted. */
  lemma GreetingRouteSkipsRetrieval(
    p: Backends, origQuery: string, summary: string, numChunks: nat, stream: bool, pick: nat,
    retrieve': (string, nat) -> seq<string>, questionLlm': Prompt -> string, parse': string -> Option<string>)
    requires pick < |DEFAULT_RESPONSES|
    requires IsGreetingLabel(ClassifyQuery(p, origQuery))
    ensures RespondToQuery(p, origQuery, summary, numChunks, stream, pick).docs == []
    ensures RespondToQuery(p.(retrieve := retrieve', questionLlm := questionLlm', standaloneQuestion := parse'),
                           origQuery, summary, numChunks, stream, pick)
         == RespondToQuery(p, origQuery, summary, numChunks, stream, pick)
  {
    var p' := p.(retrieve := retrieve', questionLlm := questionLlm', standaloneQuestion := parse');
    assert ClassifyQuery(p', origQuery) == ClassifyQuery(p, origQuery);
    assert GetGreetingsAnswer(p', origQuery, stream) == GetGreetingsAnswer(p, origQuery, stream);
  }

  /** Without a summary the original question is retrieved for, and the rephraser is not consulted. */
  lemma EmptySummarySkipsRephrase(
    p: Backends, origQuery: string, numChunks: nat, stream: bool, pick: nat,
    questionLlm': Prompt -> string, parse': string -> Option<string>)
    requires pick < |DEFAULT_RESPONSES|
    requires !IsGreetingLabel(ClassifyQuery(p, origQuery))
    ensures RespondToQuery(p, origQuery, "", numChunks, stream, pick).docs == p.retrieve(origQuery, numChunks)
    ensures RespondToQuery(p.(questionLlm := questionLlm', standaloneQuestion := parse'), origQuery, "", numChunks, stream, pick)
         == RespondToQuery(p, origQuery, "", numChunks, stream, pick)
  {
    var p' := p.(questionLlm := questionLlm', standaloneQuestion := parse');
    assert ClassifyQuery(p', origQuery) == ClassifyQuery(p, origQuery);
    assert GetAnswer(p', origQuery, numChunks, stream, pick) == GetAnswer(p, origQuery, numChunks, stream, pick);
  }

  /**
   * A whitespace-only summary counts as present for routing, so the question
   * is rephrased, while the summary prompt treats the same summary as absent.
   */
  lemma BlankSummaryTreatedTwoWays(
    p: Backends, origQuery: string, summary: string, answer: string, numChunks: nat, stream: bool, pick: nat)
    requires pick < |DEFAULT_RESPONSES|
    requires summary != "" && AllSpace(summary)
    requires !IsGreetingLabel(ClassifyQuery(p, origQuery))
    ensures RespondToQuery(p, origQuery, summary, numChunks, stream, pick).docs
         == p.retrieve(RephraseQuestion(p, origQuery, summary), numChunks)
    ensures SummaryPrompt(origQuery, answer, summary) == FirstChatSummary(origQuery, Strip(answer))
  {
  }

  // ---------------------------------------------------------------------------
  // add_new_qa
  // ---------------------------------------------------------------------------

  function OrEmpty(file: Option<string>): string
  {
    if file.Some? then file.value else ""
  }

  /** One knowledge-base entry: the marker line with the question, then the answer. */
  function KbEntry(question: string, answer: string): string
  {
    KB_ENTRY_MARKER + question + "\n" + answer
  }

  /** The knowledge-base text after adding an entry to `existing` (None: no file yet). */
  function KbText(existing: Option<string>, question: string, answer: string): string
  {
    Strip(OrEmpty(existing)) + KB_SEPARATOR + (KB_ENTRY_MARKER + question) + "\n" + answer
  }

  /** How the knowledge-base text decomposes: kept text, separator, then the entry, which ends with the indexed text. */
  lemma KbLayout(kept: string, question: string, answer: string)
    ensures kept + KB_SEPARATOR + (KB_ENTRY_MARKER + question) + "\n" + answer == kept + KB_SEPARATOR + KbEntry(question, answer)
    ensures kept + KB_SEPARATOR + (KB_ENTRY_MARKER + question) + "\n" + answer
         == kept + KB_SEPARATOR + KB_ENTRY_MARKER + (question + "\n" + answer)
    ensures PrefixOf(kept, kept + KB_SEPARATOR + (KB_ENTRY_MARKER + question) + "\n" + answer)
    ensures SuffixOf(question + "\n" + answer, kept + KB_SEPARATOR + (KB_ENTRY_MARKER + question) + "\n" + answer)
  {
  }

  /**
   * Builds the new knowledge-base text and the text to index, as add_new_qa
   * does before writing the file and calling the retriever.
   */
  method AddNewQa(existing: Option<string>, question: string, answer: string) returns (dataTxt: string, qa: string)
    ensures dataTxt == KbText(existing, question, answer)
    ensures qa == question + "\n" + answer
    ensures dataTxt == Strip(OrEmpty(existing)) + KB_SEPARATOR + KB_ENTRY_MARKER + qa
    ensures PrefixOf(Strip(OrEmpty(existing)), dataTxt) && SuffixOf(qa, dataTxt)
  {
    if existing.Some? {
      dataTxt := existing.value;
    } else {
      dataTxt := "";
    }
    dataTxt := Strip(dataTxt);
    ghost var kept := dataTxt;
    dataTxt := dataTxt + KB_SEPARATOR;
    dataTxt := dataTxt + (KB_ENTRY_MARKER + question);
    dataTxt := dataTxt + "\n";
    dataTxt := dataTxt + answer;
    qa := question + "\n" + answer;
    KbLayout(kept, question, answer);
  }

  /**
   * Read back stripped, the knowledge base is its entries separated by blank
   * lines, and adding an entry whose answer does not end in whitespace keeps
   * that so, with the new entry last.
   */
  lemma AddNewQaAppendsEntry(existing: Option<string>, entries: seq<string>, question: string, answer: string)
    requires Strip(OrEmpty(existing)) == Join(KB_SEPARATOR, entries)
    requires entries == [] <==> Strip(OrEmpty(existing)) == ""
    requires answer != "" && !IsSpace(answer[|answer| - 1])
    ensures Strip(KbText(existing, question, answer)) == Join(KB_SEPARATOR, entries + [KbEntry(question, answer)])
  {
    var base := Strip(OrEmpty(existing));
    KbLayout(base, question, answer);
    EntryUnpadded(question, answer);
    StripAppended(KbText(existing, question, answer), base, KbEntry(question, answer), entries);
  }

  lemma StripAppended(text: string, base: string, e: string, entries: seq<string>)
    requires text == base + KB_SEPARATOR + e && base == Join(KB_SEPARATOR, entries)
    requires entries == [] <==> base == ""
    requires Unpadded(base) && e != "" && Unpadded(e)
    ensures Strip(text) == Join(KB_SEPARATOR, entries + [e])
  {
    if entries == [] {
      StripFirstEntry(text, e);
      assert entries + [e] == [e];
    } else {
      StripLaterEntry(text, base, e, entries);
    }
  }

  lemma StripFirstEntry(text: string, e: string)
    requires text == "" + KB_SEPARATOR + e && Unpadded(e)
    ensures Strip(text) == e
  {
    Regroup(text, KB_SEPARATOR, e, e, "");
    assert AllSpace(KB_SEPARATOR);
    StripOfPadded(KB_SEPARATOR, e, "");
  }

  lemma StripLaterEntry(text: string, base: string, e: string, entries: seq<string>)
    requires text == base + KB_SEPARATOR + e && base == Join(KB_SEPARATOR, entries) && entries != []
    requires base != "" && Unpadded(base) && e != "" && Unpadded(e)
    ensures Strip(text) == Join(KB_SEPARATOR, entries + [e])
  {
    UnpaddedAround(base, KB_SEPARATOR, e);
    StripOfUnpadded(text);
    JoinAppend(KB_SEPARATOR, entries, e);
  }

  lemma EntryUnpadded(question: string, answer: string)
    requires answer != "" && !IsSpace(answer[|answer| - 1])
    ensures KbEntry(question, answer) != "" && Unpadded(KbEntry(question, answer))
  {
    var e := KbEntry(question, answer);
    assert e[0] == '-' && e[|e| - 1] == answer[|answer| - 1];
  }

  lemma UnpaddedAround(a: string, sep: string, b: string)
    requires a != "" && Unpadded(a) && b != "" && Unpadded(b)
    ensures Unpadded(a + sep + b)
  {
    var m := a + sep + b;
    assert m[0] == a[0] && m[|m| - 1] == b[|b| - 1];
  }
}
