/** The session logic of `Inference` in reference/runinference2.py: the bounded
    conversation history, the layout of the chat prompt, the parsing of model
    output, the joining of retrieved passages, and the exception-to-value
    fallbacks that make `query_reasoning` and `run_inference` total.

    The language model and the retriever are parameters. A call that raises in
    Python is an `Err` here; each `LlmRequest` stands for one invocation of a
    LangChain chain that ends in the model (prompt formatting, the model call
    and the string output parser together). */
module RunInference {
  import opened Results
  import opened Text
  import opened Templates
  import PromptCategories

  /** A retrieved passage: a LangChain `Document`. */
  datatype Doc = Doc(pageContent: string, metadata: map<string, string>)

  /** An entry of `conversation_history`: a `HumanMessage` or an `AIMessage`. */
  datatype Turn = HumanTurn(content: string) | AiTurn(content: string)

  /** A `(role, content)` pair handed to `ChatPromptTemplate.from_messages`. */
  datatype Message = Message(role: string, content: string)

  /** A value stored in the `previous_results` dict of follow-up generation. */
  datatype Value = TextValue(text: string) | DocsValue(docs: seq<Doc>)

  /** What `PromptTemplate(template=...)` is handed: a string, or a tuple of strings. */
  datatype TemplateValue = StrTemplate(text: string) | TupleTemplate(items: seq<string>)

  /** The inputs of one chain invocation that ends in the language model. */
  datatype LlmRequest =
    | ClassifyRequest(template: string, query: string, context: string)
    | ChatRequest(messages: seq<Message>, context: string, input: string)
    | FollowupRequest(template: string, originalQuestion: string, previousAnswer: Value, contextValue: Value)

  type Llm = LlmRequest -> Result<string>
  type Retriever = string -> Result<seq<Doc>>

  /** The `{input, answer, context}` dict returned by `query_reasoning`. */
  datatype ReasoningResult = ReasoningResult(input: string, answer: string, context: seq<Doc>)

  datatype SummaryEntry = SummaryEntry(role: string, content: string)

  /** The dict returned by `get_history_summary`. */
  datatype HistorySummary = HistorySummary(messageCount: nat, maxMessages: int, history: seq<SummaryEntry>)

  /** What `classify_prompt_category` returns: the list of lines of the model's
      answer, or, on failure, a bare string. */
  datatype Classified = Lines(lines: seq<string>) | Bare(name: string)

  /** What a successful pass through the RAG chain yields. */
  datatype Generated = Generated(answer: string, docs: seq<Doc>)

  const DefaultStoreLocation := "vectorstore"
  const DefaultMaxHistoryMessages := 50
  const PreviewLength := 100
  const ApologyAnswer := "Sorry, I couldn't process your request."
  const NoContextAvailable := "No context available"
  const NoAnswerAvailable := "No answer available"
  const FollowupFailure := "Could not generate followup questions"
  const InputPlaceholder := "{input}"
  const PassageSeparator := "\n\n"
  /** `f"...\n\nContext:\n{{context}}"`: the doubled braces are a literal `{context}`. */
  const ContextSuffix := "\n\nContext:\n" + "{context}"
  const MockDocContent := "This is a mock document for testing purposes."

  // ---------------------------------------------------------------------------
  // Retrieval

  /** `MockRetriever.invoke`: one fixed passage with empty metadata, whatever the query. */
  function MockRetriever(query: string): (r: Result<seq<Doc>>)
    ensures r.Ok? && |r.value| == 1 && r.value[0].pageContent == MockDocContent
    ensures r.value[0].metadata == map[]
  {
    Ok([Doc(MockDocContent, map[])])
  }

  /** What `self.retriever` holds: `None` until `_initialize_components` has
      run, the `MockRetriever` fallback, or the vector store's retriever, a
      LangChain `Runnable` whose answers the `Retriever` parameter gives. */
  datatype RetrieverSlot = NoRetriever | Mock | Store(search: Retriever)

  /** `self.retriever.invoke(query)`; `None` has no `invoke`. */
  function InvokeRetriever(slot: RetrieverSlot, query: string): (r: Result<seq<Doc>>)
    ensures slot.Mock? ==> r == MockRetriever(query)
    ensures slot.Store? ==> r == slot.search(query)
    ensures slot.NoRetriever? ==> r.Err?
  {
    match slot
    case NoRetriever => Err("AttributeError")
    case Mock => MockRetriever(query)
    case Store(search) => search(query)
  }

  /** The passages that `self.retriever | RunnableLambda(self._format_docs)`
      formats, as written: `|` coerces its left operand to a `Runnable`, and
      one that is neither a `Runnable`, a callable nor a dict (the mock, or
      `None`) raises `TypeError` while the chain is being built. */
  function ChainRetrieve(slot: RetrieverSlot, query: string): (r: Result<seq<Doc>>)
    ensures r.Ok? <==> slot.Store? && slot.search(query).Ok?
    ensures r.Ok? ==> r == InvokeRetriever(slot, query)
    ensures !slot.Store? ==> r == Err("TypeError")
  {
    match slot
    case Store(search) => search(query)
    case _ => Err("TypeError")
  }

  /** The same step with the mock made to fit the chain, as its fallback role
      evidently intends (wrapped, say, as `RunnableLambda(self.retriever.invoke)`):
      the chain sees what `invoke` returns. `None` still cannot be composed. */
  function ChainRetrieveCorrected(slot: RetrieverSlot, query: string): (r: Result<seq<Doc>>)
    ensures !slot.NoRetriever? ==> r == InvokeRetriever(slot, query)
    ensures slot.NoRetriever? ==> r == Err("TypeError")
  {
    match slot
    case NoRetriever => Err("TypeError")
    case _ => InvokeRetriever(slot, query)
  }

  function PageContents(docs: seq<Doc>): (r: seq<string>)
    ensures |r| == |docs| && forall i :: 0 <= i < |docs| ==> r[i] == docs[i].pageContent
  {
    seq(|docs|, i requires 0 <= i < |docs| => docs[i].pageContent)
  }

  /** `_format_docs`: the page contents joined with a blank line. Every `Doc`
      has a string `page_content`, so the `str(docs)` fallback never applies. */
  function FormatDocs(docs: seq<Doc>): (r: string)
    ensures |docs| == 0 ==> r == ""
    ensures |docs| == 1 ==> r == docs[0].pageContent
    ensures forall i :: 0 <= i < |docs| ==> Contains(r, docs[i].pageContent)
  {
    var parts := PageContents(docs);
    forall i | 0 <= i < |docs| ensures Contains(Join(parts, PassageSeparator), docs[i].pageContent) {
      JoinContainsPart(parts, PassageSeparator, i);
    }
    Join(parts, PassageSeparator)
  }

  /** Formatting one more passage appends a blank line and its content. */
  lemma FormatDocsSnoc(docs: seq<Doc>, d: Doc)
    requires |docs| >= 1
    ensures FormatDocs(docs + [d]) == FormatDocs(docs) + PassageSeparator + d.pageContent
  {
    assert PageContents(docs + [d]) == PageContents(docs) + [d.pageContent];
    JoinSnoc(PageContents(docs), d.pageContent, PassageSeparator);
  }

  // ---------------------------------------------------------------------------
  // Conversation history

  /** The start index Python uses for `s[k:]` when `len(s) == n`. */
  function PySliceStart(k: int, n: nat): (r: nat)
    ensures r <= n
    ensures k >= 0 ==> r == if k > n then n else k
    ensures k < 0 ==> r == if k + n < 0 then 0 else k + n
  {
    if k < 0 then (if k + n < 0 then 0 else k + n) else if k > n then n else k
  }

  /** The trim step of `_update_conversation_history`:
      `if len(h) > max: h = h[-max:]`. The kept part is always a suffix of the
      history. For `max >= 1` it is the last `max` turns; `h[-0:]` is the whole
      list, so `max == 0` never trims; a negative `max` drops the first `-max`
      turns. */
  function Trimmed(history: seq<Turn>, maxMessages: int): (r: seq<Turn>)
    ensures |r| <= |history| && r == history[|history| - |r|..]
    ensures maxMessages >= 1 ==> |r| == if |history| < maxMessages then |history| else maxMessages
    ensures maxMessages == 0 ==> r == history
    ensures maxMessages < 0 ==> |r| == if |history| + maxMessages < 0 then 0 else |history| + maxMessages
  {
    if |history| > maxMessages then history[PySliceStart(-maxMessages, |history|)..] else history
  }

  /** The new history after `_update_conversation_history(query, answer)`. */
  function UpdatedHistory(history: seq<Turn>, query: string, answer: string, maxMessages: int): seq<Turn>
  {
    Trimmed(history + [HumanTurn(query), AiTurn(answer)], maxMessages)
  }

  /** With a limit of at least one and a history within it, one update grows
      the history by two turns up to the limit. */
  lemma UpdateLength(history: seq<Turn>, query: string, answer: string, maxMessages: int)
    requires maxMessages >= 1 && |history| <= maxMessages
    ensures |UpdatedHistory(history, query, answer, maxMessages)|
         == if |history| + 2 < maxMessages then |history| + 2 else maxMessages
  {
  }

  /** With room for two turns, an update ends with the new exchange, human first. */
  lemma UpdateEndsWithExchange(history: seq<Turn>, query: string, answer: string, maxMessages: int)
    requires maxMessages >= 2 || maxMessages == 0
    ensures var h := UpdatedHistory(history, query, answer, maxMessages);
      |h| >= 2 && h[|h| - 2] == HumanTurn(query) && h[|h| - 1] == AiTurn(answer)
  {
    var full := history + [HumanTurn(query), AiTurn(answer)];
    var h := Trimmed(full, maxMessages);
    assert h == full[|full| - |h|..];
    assert h[|h| - 2] == full[|full| - 2];
    assert h[|h| - 1] == full[|full| - 1];
  }

  /** Two suffixes of `y` of the given length are the same, however they are written. */
  lemma SuffixOfSuffix(x: seq<Turn>, y: seq<Turn>, len: nat)
    requires |x| <= |y| && x == y[|y| - |x|..] && len <= |x|
    ensures x[|x| - len..] == y[|y| - len..]
  {
    assert y[|y| - |x|..][|x| - len..] == y[|y| - len..];
  }

  /** A suffix of `a` followed by `b` is a suffix of `a + b`. */
  lemma SuffixAppend(a: seq<Turn>, t: seq<Turn>, b: seq<Turn>)
    requires |t| <= |a| && t == a[|a| - |t|..]
    ensures t + b == (a + b)[|a + b| - |t + b|..]
  {
    assert (a + b)[|a| - |t|..] == a[|a| - |t|..] + b;
  }

  /** Equally long suffixes of `t + b` and of `a + b` agree when `t` is a
      suffix of `a`. */
  lemma SuffixesAgree(a: seq<Turn>, b: seq<Turn>, t: seq<Turn>, left: seq<Turn>, right: seq<Turn>)
    requires |t| <= |a| && t == a[|a| - |t|..]
    requires |left| <= |t + b| && left == (t + b)[|t + b| - |left|..]
    requires |right| <= |a + b| && right == (a + b)[|a + b| - |right|..]
    requires |left| == |right|
    ensures left == right
  {
    SuffixAppend(a, t, b);
    SuffixOfSuffix(t + b, a + b, |left|);
  }

  /** Trimming before more turns arrive does not change how many turns a
      later trim keeps. */
  lemma TrimmedAbsorbsLength(a: seq<Turn>, b: seq<Turn>, maxMessages: int)
    requires maxMessages >= 1
    ensures |Trimmed(Trimmed(a, maxMessages) + b, maxMessages)| == |Trimmed(a + b, maxMessages)|
  {
    var n := |Trimmed(a, maxMessages)|;
    assert n == if |a| < maxMessages then |a| else maxMessages;
    assert |Trimmed(a, maxMessages) + b| == n + |b|;
  }

  /** Trimming is first-in first-out: trimming before more turns arrive and
      trimming again keeps the same turns as trimming once at the end. */
  lemma TrimmedAbsorbs(a: seq<Turn>, b: seq<Turn>, maxMessages: int)
    requires maxMessages >= 0
    ensures Trimmed(Trimmed(a, maxMessages) + b, maxMessages) == Trimmed(a + b, maxMessages)
  {
    if maxMessages >= 1 {
      var t := Trimmed(a, maxMessages);
      var left := Trimmed(t + b, maxMessages);
      var right := Trimmed(a + b, maxMessages);
      TrimmedAbsorbsLength(a, b, maxMessages);
      SuffixesAgree(a, b, t, left, right);
    } else {
      assert Trimmed(a, maxMessages) == a;
      assert Trimmed(a + b, maxMessages) == a + b;
    }
  }

  /** The turns a sequence of `(query, answer)` exchanges appends. */
  function ExchangeTurns(exchanges: seq<(string, string)>): (r: seq<Turn>)
    ensures |r| == 2 * |exchanges|
    decreases |exchanges|
  {
    if |exchanges| == 0 then []
    else [HumanTurn(exchanges[0].0), AiTurn(exchanges[0].1)] + ExchangeTurns(exchanges[1..])
  }

  /** The history after one update per exchange, in order. */
  function Replay(history: seq<Turn>, exchanges: seq<(string, string)>, maxMessages: int): seq<Turn>
    decreases |exchanges|
  {
    if |exchanges| == 0 then history
    else Replay(UpdatedHistory(history, exchanges[0].0, exchanges[0].1, maxMessages), exchanges[1..], maxMessages)
  }

  /** After any number of successful exchanges the history is the most recent
      turns of everything appended, oldest first, trimmed once; so with
      `max >= 1` it holds exactly the last `max` turns. */
  lemma {:induction false} ReplayKeepsMostRecent(history: seq<Turn>, exchanges: seq<(string, string)>, maxMessages: int)
    requires maxMessages >= 0 && |exchanges| >= 1
    ensures Replay(history, exchanges, maxMessages) == Trimmed(history + ExchangeTurns(exchanges), maxMessages)
    decreases |exchanges|
  {
    var pair := [HumanTurn(exchanges[0].0), AiTurn(exchanges[0].1)];
    var rest := exchanges[1..];
    var next := UpdatedHistory(history, exchanges[0].0, exchanges[0].1, maxMessages);
    assert ExchangeTurns(exchanges) == pair + ExchangeTurns(rest);
    if |exchanges| == 1 {
      calc {
        Replay(history, exchanges, maxMessages);
        Replay(next, rest, maxMessages);
        next;
        { assert ExchangeTurns(exchanges) == pair; }
        Trimmed(history + ExchangeTurns(exchanges), maxMessages);
      }
    } else {
      calc {
        Replay(history, exchanges, maxMessages);
        Replay(next, rest, maxMessages);
        { ReplayKeepsMostRecent(next, rest, maxMessages); }
        Trimmed(next + ExchangeTurns(rest), maxMessages);
        { TrimmedAbsorbs(history + pair, ExchangeTurns(rest), maxMessages); }
        Trimmed(history + pair + ExchangeTurns(rest), maxMessages);
        { assert history + pair + ExchangeTurns(rest) == history + ExchangeTurns(exchanges); }
        Trimmed(history + ExchangeTurns(exchanges), maxMessages);
      }
    }
  }

  /** From an empty history, `n` recorded exchanges leave `2n` turns while
      that is below the limit, and exactly the limit from then on. */
  lemma ReplayLength(exchanges: seq<(string, string)>, maxMessages: int)
    requires maxMessages >= 1
    ensures |Replay([], exchanges, maxMessages)| == if 2 * |exchanges| < maxMessages then 2 * |exchanges| else maxMessages
  {
    if |exchanges| > 0 {
      ReplayKeepsMostRecent([], exchanges, maxMessages);
      assert [] + ExchangeTurns(exchanges) == ExchangeTurns(exchanges);
    }
  }

  /** The `content` of a summary entry: the first 100 characters and "..." when
      longer than 100, otherwise the content itself. */
  function Preview(content: string): (r: string)
    ensures |content| <= PreviewLength ==> r == content
    ensures |content| > PreviewLength ==> |r| == PreviewLength + 3 && r[..PreviewLength] == content[..PreviewLength]
    ensures |content| > PreviewLength ==> r[PreviewLength..] == "..."
  {
    if |content| > PreviewLength then content[..PreviewLength] + "..." else content
  }

  /** The summary entry for one turn. */
  function SummaryOf(turn: Turn): SummaryEntry
  {
    SummaryEntry(if turn.HumanTurn? then "human" else "ai", Preview(turn.content))
  }

  // ---------------------------------------------------------------------------
  // Prompt message assembly

  function TurnMessage(turn: Turn): Message
  {
    match turn
    case HumanTurn(c) => Message("human", c)
    case AiTurn(c) => Message("ai", c)
  }

  function HistoryMessages(history: seq<Turn>): seq<Message>
  {
    seq(|history|, i requires 0 <= i < |history| => TurnMessage(history[i]))
  }

  /** The system prompt after the "add context if missing" step: it always
      holds a `{context}` slot, starts with the original prompt, and differs
      from it exactly when the original had no slot. */
  function WithContextSlot(systemPrompt: string): (r: string)
    ensures Contains(r, PromptCategories.ContextPlaceholder)
    ensures |systemPrompt| <= |r| && r[..|systemPrompt|] == systemPrompt
    ensures r == systemPrompt <==> Contains(systemPrompt, PromptCategories.ContextPlaceholder)
  {
    if Contains(systemPrompt, PromptCategories.ContextPlaceholder) then systemPrompt
    else
      ContainsSuffix("\n\nContext:\n", "{context}");
      ContainsConcat(systemPrompt, ContextSuffix, "{context}");
      assert |systemPrompt + ContextSuffix| > |systemPrompt|;
      systemPrompt + ContextSuffix
  }

  /** The messages `query_reasoning` hands to `ChatPromptTemplate.from_messages`:
      the system prompt (with a `{context}` slot), then the history turns in
      order when history is maintained, then the human `{input}` turn. */
  function PromptMessages(systemPrompt: string, history: seq<Turn>, maintainHistory: bool): (r: seq<Message>)
    ensures |r| == 2 + (if maintainHistory then |history| else 0)
    ensures r[0] == Message("system", WithContextSlot(systemPrompt))
    ensures maintainHistory ==> forall i :: 0 <= i < |history| ==> r[i + 1] == TurnMessage(history[i])
    ensures r[|r| - 1] == Message("human", InputPlaceholder)
  {
    [Message("system", WithContextSlot(systemPrompt))]
    + (if maintainHistory then HistoryMessages(history) else [])
    + [Message("human", InputPlaceholder)]
  }

  /** The prompt registered for a category of a catalog with the shipped shape
      already holds `{context}`, so the system message is that prompt unchanged. */
  lemma RegisteredPromptNeedsNoSlot(cat: PromptCategories.Catalog, category: string)
    requires PromptCategories.ShippedShape(cat) && category in cat.prompts
    ensures WithContextSlot(cat.prompts[category]) == cat.prompts[category]
  {
  }

  // ---------------------------------------------------------------------------
  // Classification and the RAG pipeline

  /** The classification chain's inputs: the catalog's classification
      template, the query and the fixed context sentinel. */
  function ClassificationRequest(cat: PromptCategories.Catalog, query: string): LlmRequest
  {
    ClassifyRequest(PromptCategories.GetClassificationTemplate(cat), query, NoContextAvailable)
  }

  /** `classify_prompt_category` as written: the stripped model text split
      into lines; on any failure the bare string `categories[0]`, itself an
      `IndexError` when the catalog has no category. */
  function ClassifyPromptCategory(cat: PromptCategories.Catalog, llm: Llm, query: string): (r: Result<Classified>)
    ensures (r.Ok? && r.value.Lines?) <==> llm(ClassificationRequest(cat, query)).Ok?
    ensures r.Ok? && r.value.Lines? ==>
      && |r.value.lines| >= 1
      && (forall i :: 0 <= i < |r.value.lines| ==> '\n' !in r.value.lines[i])
      && Join(r.value.lines, "\n") == Strip(llm(ClassificationRequest(cat, query)).value)
    ensures llm(ClassificationRequest(cat, query)).Err? ==>
      r == if |cat.order| > 0 then Ok(Bare(cat.order[0])) else Err("IndexError")
  {
    match llm(ClassificationRequest(cat, query))
    case Ok(text) => JoinSplit(Strip(text), '\n'); Ok(Lines(Split(Strip(text), '\n')))
    case Err(_) =>
      var categories := PromptCategories.GetCategories(cat);
      if |categories| > 0 then Ok(Bare(categories[0])) else Err("IndexError")
  }

  /** `classify_prompt_category` with the fallback it evidently intends: the
      default category wrapped in a one-element list. */
  function ClassifyPromptCategoryCorrected(cat: PromptCategories.Catalog, llm: Llm, query: string): (r: Result<Classified>)
    ensures llm(ClassificationRequest(cat, query)).Ok? ==> r == ClassifyPromptCategory(cat, llm, query)
    ensures llm(ClassificationRequest(cat, query)).Err? ==>
      r == if |cat.order| > 0 then Ok(Lines([cat.order[0]])) else Err("IndexError")
    ensures r.Ok? ==> r.value.Lines? && |r.value.lines| >= 1
  {
    match llm(ClassificationRequest(cat, query))
    case Ok(_) => ClassifyPromptCategory(cat, llm, query)
    case Err(_) =>
      var categories := PromptCategories.GetCategories(cat);
      if |categories| > 0 then Ok(Lines([categories[0]])) else Err("IndexError")
  }

  /** Python's `[0]` on the classification result: the first line of a list,
      the first character of a string, an `IndexError` on an empty one. */
  function Head(c: Classified): Result<string>
  {
    match c
    case Lines(ls) => if |ls| > 0 then Ok(ls[0]) else Err("IndexError")
    case Bare(s) => if |s| > 0 then Ok([s[0]]) else Err("IndexError")
  }

  /** The body of the `try` in `query_reasoning`, from a classification result
      and the passages the chain's retrieval step yields: look up the prompt,
      assemble the messages, run the RAG chain (format the passages, generate),
      then `invoke` the retriever again for the passages returned. Any raised
      exception is the first `Err` met. */
  function GenerateFrom(cat: PromptCategories.Catalog, classified: Result<Classified>, passages: Result<seq<Doc>>,
                        query: string, history: seq<Turn>, maintainHistory: bool, llm: Llm,
                        retriever: RetrieverSlot): Result<Generated>
  {
    var labels :- classified;
    var category :- Head(labels);
    var systemPrompt :- PromptCategories.GetPrompt(cat, category);
    var messages := PromptMessages(systemPrompt, history, maintainHistory);
    var context :- passages;
    var answer :- llm(ChatRequest(messages, FormatDocs(context), query));
    var docs :- InvokeRetriever(retriever, query);
    Ok(Generated(answer, docs))
  }

  /** The `try` body of `query_reasoning` as written. */
  function Generate(cat: PromptCategories.Catalog, query: string, history: seq<Turn>, maintainHistory: bool,
                    llm: Llm, retriever: RetrieverSlot): Result<Generated>
  {
    GenerateFrom(cat, ClassifyPromptCategory(cat, llm, query), ChainRetrieve(retriever, query),
                 query, history, maintainHistory, llm, retriever)
  }

  /** The same body with the corrected classification fallback and the mock
      made to fit the chain. */
  function GenerateCorrected(cat: PromptCategories.Catalog, query: string, history: seq<Turn>, maintainHistory: bool,
                             llm: Llm, retriever: RetrieverSlot): Result<Generated>
  {
    GenerateFrom(cat, ClassifyPromptCategoryCorrected(cat, llm, query), ChainRetrieveCorrected(retriever, query),
                 query, history, maintainHistory, llm, retriever)
  }

  /** The first line of the stripped classification text. */
  function FirstLine(text: string): string
  {
    Split(Strip(text), '\n')[0]
  }

  /** On a catalog with the shipped shape, generation as written succeeds
      exactly when classification succeeds with a first line that is a
      registered category, the retriever is the vector store's and its search
      succeeds, and the model answers the chat prompt; the system message is
      then the registered prompt unchanged, the answer is the model's text and
      the context is the retrieved passages. */
  lemma GenerateOutcome(cat: PromptCategories.Catalog, query: string, history: seq<Turn>, maintainHistory: bool,
                        llm: Llm, retriever: RetrieverSlot)
    requires PromptCategories.ShippedShape(cat)
    ensures var g := Generate(cat, query, history, maintainHistory, llm, retriever);
      var cls := llm(ClassificationRequest(cat, query));
      g.Ok? <==>
        && cls.Ok?
        && FirstLine(cls.value) in PromptCategories.CategoryNames
        && retriever.Store?
        && retriever.search(query).Ok?
        && llm(ChatRequest(PromptMessages(cat.prompts[FirstLine(cls.value)], history, maintainHistory),
                           FormatDocs(retriever.search(query).value), query)).Ok?
    ensures var g := Generate(cat, query, history, maintainHistory, llm, retriever);
      var cls := llm(ClassificationRequest(cat, query));
      g.Ok? ==>
        var prompt := cat.prompts[FirstLine(cls.value)];
        var messages := PromptMessages(prompt, history, maintainHistory);
        && messages[0] == Message("system", prompt)
        && g.value == Generated(llm(ChatRequest(messages, FormatDocs(retriever.search(query).value), query)).value,
                                retriever.search(query).value)
  {
    var cls := llm(ClassificationRequest(cat, query));
    if cls.Ok? {
      var labels := ClassifyPromptCategory(cat, llm, query).value;
      assert Head(labels) == Ok(FirstLine(cls.value));
      if FirstLine(cls.value) in PromptCategories.CategoryNames {
        RegisteredPromptNeedsNoSlot(cat, FirstLine(cls.value));
      }
    } else {
      ClassificationFailureIsApology(cat, query, history, maintainHistory, llm, retriever, 0);
    }
  }

  /** What one `query_reasoning` call returns and how it leaves the history,
      given the outcome of its `try` body: on success the answer and passages,
      with the exchange recorded only when history is maintained; on any
      failure the apology with no passages and the history untouched. */
  function Step(g: Result<Generated>, query: string, maintainHistory: bool, maxMessages: int,
                before: seq<Turn>): (ReasoningResult, seq<Turn>)
  {
    if g.Ok? then
      (ReasoningResult(query, g.value.answer, g.value.docs),
       if maintainHistory then UpdatedHistory(before, query, g.value.answer, maxMessages) else before)
    else
      (ReasoningResult(query, ApologyAnswer, []), before)
  }

  /** `query_reasoning` as written, as a function of the history before the
      call: the result and the history after it. */
  function QueryReasoningAsWritten(cat: PromptCategories.Catalog, query: string, maintainHistory: bool, llm: Llm,
                                   retriever: RetrieverSlot, maxMessages: int,
                                   before: seq<Turn>): (ReasoningResult, seq<Turn>)
  {
    Step(Generate(cat, query, before, maintainHistory, llm, retriever), query, maintainHistory, maxMessages, before)
  }

  /** On a catalog with the shipped shape, a failed classification (a raised
      exception) makes `query_reasoning` answer with its apology and leave the
      history alone, whatever the retriever and model would do:
      `categories[0][0]` is the one-letter string "D" (the initial of the first
      category name), which is not a key. */
  lemma ClassificationFailureIsApology(cat: PromptCategories.Catalog, query: string, history: seq<Turn>,
                                       maintainHistory: bool, llm: Llm, retriever: RetrieverSlot, maxMessages: int)
    requires PromptCategories.ShippedShape(cat)
    requires llm(ClassificationRequest(cat, query)).Err?
    ensures ClassifyPromptCategory(cat, llm, query).Ok?
    ensures Head(ClassifyPromptCategory(cat, llm, query).value) == Ok([PromptCategories.DiseaseOverviewName[0]])
    ensures PromptCategories.GetPrompt(cat, [PromptCategories.DiseaseOverviewName[0]]).Err?
    ensures Generate(cat, query, history, maintainHistory, llm, retriever).Err?
    ensures QueryReasoningAsWritten(cat, query, maintainHistory, llm, retriever, maxMessages, history)
         == (ReasoningResult(query, ApologyAnswer, []), history)
  {
    var initial := [PromptCategories.DiseaseOverviewName[0]];
    assert cat.order[0] == PromptCategories.DiseaseOverviewName;
    assert initial !in PromptCategories.CategoryNames by {
      assert |initial| == 1;
      assert |PromptCategories.DiseaseOverviewName| > 1;
      assert |PromptCategories.TreatmentRecommendationName| > 1;
      assert |PromptCategories.DiagnosisWorkupName| > 1;
      assert |PromptCategories.ScreeningSurveillanceName| > 1;
    }
  }

  /** As written, a retriever that is not a `Runnable` (the `MockRetriever`
      fallback, or `None`) cannot be composed into the RAG chain: whatever the
      classification and the model do, `query_reasoning` answers with its
      apology and leaves the history alone. */
  lemma MockInChainIsApology(cat: PromptCategories.Catalog, query: string, history: seq<Turn>,
                             maintainHistory: bool, llm: Llm, retriever: RetrieverSlot, maxMessages: int)
    requires !retriever.Store?
    ensures ChainRetrieve(retriever, query) == Err("TypeError")
    ensures Generate(cat, query, history, maintainHistory, llm, retriever).Err?
    ensures QueryReasoningAsWritten(cat, query, maintainHistory, llm, retriever, maxMessages, history)
         == (ReasoningResult(query, ApologyAnswer, []), history)
  {
  }

  /** With the corrected fallback a failed classification selects the default
      category's template, and the pipeline goes on to retrieval and generation. */
  lemma CorrectedClassificationFallsBack(cat: PromptCategories.Catalog, query: string, history: seq<Turn>,
                                         maintainHistory: bool, llm: Llm, retriever: RetrieverSlot)
    requires PromptCategories.ShippedShape(cat)
    requires llm(ClassificationRequest(cat, query)).Err?
    ensures ClassifyPromptCategoryCorrected(cat, llm, query).Ok?
    ensures Head(ClassifyPromptCategoryCorrected(cat, llm, query).value) == Ok(PromptCategories.DiseaseOverviewName)
    ensures var prompt := cat.prompts[PromptCategories.DiseaseOverviewName];
      var messages := PromptMessages(prompt, history, maintainHistory);
      var passages := ChainRetrieveCorrected(retriever, query);
      && messages[0] == Message("system", prompt)
      && GenerateCorrected(cat, query, history, maintainHistory, llm, retriever) ==
           if passages.Err? then Err(passages.error)
           else var answer := llm(ChatRequest(messages, FormatDocs(passages.value), query));
             if answer.Err? then Err(answer.error) else Ok(Generated(answer.value, passages.value))
  {
    RegisteredPromptNeedsNoSlot(cat, PromptCategories.DiseaseOverviewName);
  }

  /** The corrected pipeline differs from the one as written only when
      classification fails or the mock is installed: with the vector store's
      retriever (or none) and a classification that succeeds, the two agree. */
  lemma CorrectedAgreesOnClassification(cat: PromptCategories.Catalog, query: string, history: seq<Turn>,
                                        maintainHistory: bool, llm: Llm, retriever: RetrieverSlot)
    requires llm(ClassificationRequest(cat, query)).Ok?
    requires !retriever.Mock?
    ensures GenerateCorrected(cat, query, history, maintainHistory, llm, retriever)
         == Generate(cat, query, history, maintainHistory, llm, retriever)
  {
  }

  /** With the mock made to fit the chain, the mock behaves as a vector store
      whose every search returns the mock passage: with a classification that
      succeeds, the pipeline is the one as written over such a store, a
      successful answer carries the single mock passage, and the model saw its
      text as the whole context. */
  lemma MockRetrieverContext(cat: PromptCategories.Catalog, query: string, history: seq<Turn>, maintainHistory: bool, llm: Llm)
    ensures GenerateCorrected(cat, query, history, maintainHistory, llm, Mock)
         == GenerateCorrected(cat, query, history, maintainHistory, llm, Store(MockRetriever))
    ensures llm(ClassificationRequest(cat, query)).Ok? ==>
      GenerateCorrected(cat, query, history, maintainHistory, llm, Mock)
        == Generate(cat, query, history, maintainHistory, llm, Store(MockRetriever))
    ensures var g := GenerateCorrected(cat, query, history, maintainHistory, llm, Mock);
      g.Ok? ==> g.value.docs == [Doc(MockDocContent, map[])] && FormatDocs(g.value.docs) == MockDocContent
  {
  }

  /** `query_reasoning` with the corrected classification fallback and the
      mock made to fit the chain. */
  ghost predicate ReasoningStep(cat: PromptCategories.Catalog, query: string, maintainHistory: bool, llm: Llm,
                                retriever: RetrieverSlot, maxMessages: int,
                                before: seq<Turn>, r: ReasoningResult, after: seq<Turn>)
  {
    (r, after) == Step(GenerateCorrected(cat, query, before, maintainHistory, llm, retriever),
                       query, maintainHistory, maxMessages, before)
  }

  // ---------------------------------------------------------------------------
  // Follow-up questions

  /** A LangChain `PromptTemplate`: its template string and the variables it
      will ask for when invoked. */
  datatype PromptTemplate = PromptTemplate(template: string, inputVariables: seq<string>)

  /** `PromptTemplate(input_variables=..., template=t)`: LangChain recomputes the
      variables from the template's fields, overriding the list it is given. A
      malformed template raises `ValueError`, and a tuple cannot be parsed at all. */
  function NewPromptTemplate(t: TemplateValue): (r: Result<PromptTemplate>)
    ensures t.TupleTemplate? ==> r.Err?
    ensures t.StrTemplate? ==> (r.Ok? <==> Fields(t.text).Ok?)
    ensures r.Ok? ==> r.value.template == t.text && r.value.inputVariables == Fields(t.text).value
  {
    match t
    case StrTemplate(s) =>
      var fields :- Fields(s);
      Ok(PromptTemplate(s, fields))
    case TupleTemplate(_) => Err("TypeError")
  }

  /** Every variable the template asks for is one of the three keys that
      `generate_followup_questions` supplies; otherwise `invoke` raises. */
  predicate Provided(variables: seq<string>)
  {
    forall i :: 0 <= i < |variables| ==> variables[i] in PromptCategories.FollowupVariables
  }

  /** `dict.get(key, default)`. */
  function GetOr(m: map<string, Value>, key: string, default: Value): Value
  {
    if key in m then m[key] else default
  }

  /** The follow-up chain's inputs, with the documented defaults for a missing
      answer or context. */
  function FollowupRequestFor(template: string, originalQuestion: string, previousResults: map<string, Value>): LlmRequest
  {
    FollowupRequest(template, originalQuestion,
                    GetOr(previousResults, "answer", TextValue(NoAnswerAvailable)),
                    GetOr(previousResults, "context", TextValue(NoContextAvailable)))
  }

  /** The body of `generate_followup_questions` for a given template object:
      the fallback list when the template is rejected, asks for a variable
      that is not supplied, or the model call fails; otherwise the lines of the
      stripped model text. */
  function FollowupWith(template: TemplateValue, llm: Llm, originalQuestion: string, previousResults: map<string, Value>): (r: seq<string>)
    ensures |r| >= 1
    ensures NewPromptTemplate(template).Err? ==> r == [FollowupFailure]
    ensures NewPromptTemplate(template).Ok? && !Provided(NewPromptTemplate(template).value.inputVariables) ==> r == [FollowupFailure]
    ensures NewPromptTemplate(template).Ok? && Provided(NewPromptTemplate(template).value.inputVariables) ==>
      var request := FollowupRequestFor(template.text, originalQuestion, previousResults);
      && (llm(request).Err? ==> r == [FollowupFailure])
      && (llm(request).Ok? ==>
            && (forall i :: 0 <= i < |r| ==> '\n' !in r[i])
            && Join(r, "\n") == Strip(llm(request).value))
  {
    match NewPromptTemplate(template)
    case Err(_) => [FollowupFailure]
    case Ok(prompt) =>
      if !Provided(prompt.inputVariables) then [FollowupFailure]
      else
        match llm(FollowupRequestFor(prompt.template, originalQuestion, previousResults))
        case Ok(text) => JoinSplit(Strip(text), '\n'); Split(Strip(text), '\n')
        case Err(_) => [FollowupFailure]
  }

  /** `generate_followup_questions` as written: `followup_template` is a tuple,
      so building the `PromptTemplate` raises and every call returns the
      fallback list, whatever the model would answer. */
  function GenerateFollowupQuestions(cat: PromptCategories.Catalog, llm: Llm, originalQuestion: string,
                                     previousResults: map<string, Value>): (r: seq<string>)
    ensures r == [FollowupFailure]
  {
    var t := PromptCategories.GetFollowupTemplate(cat);
    FollowupWith(TupleTemplate([t.0, t.1]), llm, originalQuestion, previousResults)
  }

  /** `generate_followup_questions` with the template as evidently intended:
      one string whose only fields are the three supplied variables, as
      `PromptCategories.IntendedFollowupTemplate()` is. The model is asked
      with the original question, and with the previous answer and context or
      their sentinels; the result is the fallback list when it fails, and
      otherwise the lines of its stripped text. */
  function GenerateFollowupQuestionsCorrected(template: string, llm: Llm, originalQuestion: string,
                                              previousResults: map<string, Value>): (r: seq<string>)
    requires Fields(template) == Ok(PromptCategories.FollowupVariables)
    ensures var request := FollowupRequestFor(template, originalQuestion, previousResults);
      && request.originalQuestion == originalQuestion
      && request.previousAnswer == (if "answer" in previousResults then previousResults["answer"] else TextValue(NoAnswerAvailable))
      && request.contextValue == (if "context" in previousResults then previousResults["context"] else TextValue(NoContextAvailable))
      && (llm(request).Err? ==> r == [FollowupFailure])
      && (llm(request).Ok? ==>
            && |r| >= 1
            && (forall i :: 0 <= i < |r| ==> '\n' !in r[i])
            && Join(r, "\n") == Strip(llm(request).value))
  {
    FollowupWith(StrTemplate(template), llm, originalQuestion, previousResults)
  }

  // ---------------------------------------------------------------------------
  // The session object

  /** One reasoning session. The retriever and model that `_initialize_components`
      would install are passed to each call instead (`retriever` is what
      `self.retriever` holds). */
  class Inference {
    var storeLocation: string
    var maxHistoryMessages: int
    var conversationHistory: seq<Turn>
    var promptCategories: PromptCategories.Catalog

    /** `Inference(store_location, max_history_messages)`, with the source's defaults. */
    constructor (storeLocation: string := DefaultStoreLocation, maxHistoryMessages: int := DefaultMaxHistoryMessages)
      ensures this.storeLocation == storeLocation
      ensures this.maxHistoryMessages == maxHistoryMessages
      ensures conversationHistory == []
      ensures promptCategories == PromptCategories.Default()
    {
      this.storeLocation := storeLocation;
      this.maxHistoryMessages := maxHistoryMessages;
      conversationHistory := [];
      promptCategories := PromptCategories.Default();
    }

    /** `_update_conversation_history`: append the human turn, then the ai
        turn, then trim to the last `max_history_messages` entries. */
    method UpdateConversationHistory(query: string, answer: string)
      modifies this`conversationHistory
      ensures conversationHistory == UpdatedHistory(old(conversationHistory), query, answer, maxHistoryMessages)
      ensures maxHistoryMessages >= 1 ==> |conversationHistory| <= maxHistoryMessages
    {
      conversationHistory := conversationHistory + [HumanTurn(query)];
      conversationHistory := conversationHistory + [AiTurn(answer)];
      if |conversationHistory| > maxHistoryMessages {
        conversationHistory := conversationHistory[PySliceStart(-maxHistoryMessages, |conversationHistory|)..];
      }
      assert old(conversationHistory) + [HumanTurn(query)] + [AiTurn(answer)]
          == old(conversationHistory) + [HumanTurn(query), AiTurn(answer)];
    }

    /** `clear_history`. */
    method ClearHistory()
      modifies this`conversationHistory
      ensures conversationHistory == []
      ensures GetHistorySummary().messageCount == 0
      ensures GetHistorySummary().maxMessages == maxHistoryMessages
    {
      conversationHistory := [];
    }

    /** `get_history_summary`: the count, the configured maximum, and one entry
        per turn in order, with its role and its preview. */
    function GetHistorySummary(): (s: HistorySummary)
      reads this
      ensures s.messageCount == |conversationHistory|
      ensures s.maxMessages == maxHistoryMessages
      ensures |s.history| == |conversationHistory|
      ensures forall i :: 0 <= i < |conversationHistory| ==>
        && s.history[i].role == (if conversationHistory[i].HumanTurn? then "human" else "ai")
        && s.history[i].content == Preview(conversationHistory[i].content)
    {
      HistorySummary(|conversationHistory|, maxHistoryMessages,
                     seq(|conversationHistory|, i requires 0 <= i < |conversationHistory| reads this => SummaryOf(conversationHistory[i])))
    }

    /** The message-building part of `query_reasoning`: start with the system
        prompt, append each history turn when history is maintained and not
        empty, append the human `{input}` turn, then replace the system message
        when its prompt lacks a `{context}` slot. */
    method AssembleMessages(systemPrompt: string, maintainHistory: bool) returns (messages: seq<Message>)
      ensures messages == PromptMessages(systemPrompt, conversationHistory, maintainHistory)
    {
      messages := [Message("system", systemPrompt)];
      if maintainHistory && |conversationHistory| > 0 {
        var i := 0;
        while i < |conversationHistory|
          invariant 0 <= i <= |conversationHistory|
          invariant |messages| == i + 1 && messages[0] == Message("system", systemPrompt)
          invariant forall k :: 0 <= k < i ==> messages[k + 1] == TurnMessage(conversationHistory[k])
        {
          messages := messages + [TurnMessage(conversationHistory[i])];
          i := i + 1;
        }
      }
      messages := messages + [Message("human", InputPlaceholder)];
      if !Contains(messages[0].content, PromptCategories.ContextPlaceholder) {
        messages := messages[0 := Message("system", messages[0].content + ContextSuffix)];
      }
      var expected := PromptMessages(systemPrompt, conversationHistory, maintainHistory);
      assert |messages| == |expected|;
      forall k | 0 <= k < |messages| ensures messages[k] == expected[k] {
        if 0 < k < |messages| - 1 {
          assert maintainHistory && messages[k] == TurnMessage(conversationHistory[k - 1]);
        }
      }
    }

    /** `query_reasoning`, with the corrected classification fallback and the
        mock made to fit the chain: never raises; see `ReasoningStep`. */
    method QueryReasoning(query: string, llm: Llm, retriever: RetrieverSlot, maintainHistory: bool := true) returns (r: ReasoningResult)
      modifies this`conversationHistory
      ensures ReasoningStep(promptCategories, query, maintainHistory, llm, retriever, maxHistoryMessages,
                            old(conversationHistory), r, conversationHistory)
      ensures r.input == query
      ensures !maintainHistory ==> conversationHistory == old(conversationHistory)
    {
      r := ReasoningResult(query, ApologyAnswer, []);
      var labels := ClassifyPromptCategoryCorrected(promptCategories, llm, query);
      if labels.Err? { return; }
      var category := Head(labels.value);
      if category.Err? { return; }
      var systemPrompt := PromptCategories.GetPrompt(promptCategories, category.value);
      if systemPrompt.Err? { return; }
      var messages := AssembleMessages(systemPrompt.value, maintainHistory);
      var passages := ChainRetrieveCorrected(retriever, query);
      if passages.Err? { return; }
      var answer := llm(ChatRequest(messages, FormatDocs(passages.value), query));
      if answer.Err? { return; }
      var docs := InvokeRetriever(retriever, query);
      if docs.Err? { return; }
      r := ReasoningResult(query, answer.value, docs.value);
      if maintainHistory {
        UpdateConversationHistory(query, answer.value);
      }
    }

    /** `run_inference`: its own `except` branch (the internal-error answer)
        cannot be reached, because `query_reasoning` catches every exception;
        the result is `query_reasoning`'s. */
    method RunInference(query: string, llm: Llm, retriever: RetrieverSlot, maintainHistory: bool := true) returns (r: ReasoningResult)
      modifies this`conversationHistory
      ensures ReasoningStep(promptCategories, query, maintainHistory, llm, retriever, maxHistoryMessages,
                            old(conversationHistory), r, conversationHistory)
      ensures r.input == query
      ensures !maintainHistory ==> conversationHistory == old(conversationHistory)
    {
      r := QueryReasoning(query, llm, retriever, maintainHistory);
    }
  }
}
