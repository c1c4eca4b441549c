# MedCopilot inference core in Dafny

A model of the core of a medical retrieval-augmented question-answering service. It covers two files and proves properties of both.

- **The prompt catalog** (`reference/promptcategories.py`).
  - There are four category templates, keyed by category name in a fixed order.
  - There is a classification template and a follow-up template.
  - Accessors look a template up or return one.
- **The session logic of `Inference`** (`reference/runinference2.py`). It covers:
  - the bounded conversation history (append two turns, keep the most recent, clear, summarise with a 100-character preview);
  - the layout of the chat prompt messages;
  - the parsing of model output (strip, then split on newlines);
  - the joining of retrieved passages with a blank line;
  - the exception-to-value fallbacks that make `query_reasoning` and `run_inference` total.

Modules, one per file:

- `Results` (`results.dfy`): a `Result` type. `Err` stands for a raised Python exception.
- `Text` (`text.dfy`): the parts of Python's `str` the code uses.
  - `strip()` with Python's whitespace set.
  - `split(sep)`, which never returns an empty list.
  - `sep.join(parts)`.
  - The substring test `p in s`.
- `Templates` (`templates.dfy`): the f-string template syntax LangChain's `PromptTemplate` reads.
  - `Fields` is the list of field names `string.Formatter().parse` yields, or its `ValueError` (a lone `}`, an unclosed `{`, or a `{` inside a field name).
  - `Format` is `str.format` with string values, or its `KeyError` or `ValueError`, on the same grammar.
  - `Escape` doubles every brace, so that text stays literal inside a template.
- `PromptCategories` (`promptcategories.dfy`): the catalog.
  - A `Catalog` value is one `PromptCategories` instance: the `prompt_categories` dict as a map, plus its key order.
  - `Default()` is the shipped instance, with the template text written out.
  - `ShippedShape` is the part of that instance's shape that the session code relies on. `DefaultShippedShape` proves it for `Default()`.
  - `IntendedFollowupTemplate()` is the follow-up template as evidently intended: one string built from the source's literals, with the braces of the JSON sample doubled.
- `RunInference` (`runinference2.dfy`): the session.
  - The language model is a parameter of type `LlmRequest -> Result<string>`. One request stands for one invocation of a LangChain chain that ends in the model.
  - What `self.retriever` holds is a `RetrieverSlot`: nothing, the `MockRetriever` fallback, or a vector-store retriever. The store's search is a parameter of type `string -> Result<seq<Doc>>`.
  - The retriever is used twice. `ChainRetrieve` is its use inside the RAG chain, where it must be a LangChain `Runnable`. `InvokeRetriever` is the later `invoke` for the returned passages.
  - The pipeline is specified by functions: `Generate` and `QueryReasoningAsWritten` as written, and `GenerateCorrected` and `ReasoningStep` with the corrections of the findings below.
  - The class `Inference` holds the history as a `seq<Turn>` field, which its methods update in place.
  - Messages are built with a loop over the history, as in the code.

## Model

| member | source | states |
|---|---|---|
| PromptCategories.DefaultGetPrompt | reference/promptcategories.py:161-169 | `get_prompt` succeeds exactly for the four category names, returns the template written for that name (which holds `{context}`), and raises `KeyError` for every other string |
| PromptCategories.DefaultGetCategories | reference/promptcategories.py:161-172 | `get_categories` returns exactly the four category names in declaration order (disease overview, treatment recommendation, diagnosis and workup, screening and surveillance); they are distinct and are exactly the keys `get_prompt` accepts |
| PromptCategories.DefaultFollowupTemplate | reference/promptcategories.py:132-146 | the follow-up template is a pair; its second element is the JSON instruction line, and its first holds `{original_question}`, `{previous_answer}` and `{context}` |
| PromptCategories.DefaultClassificationTemplate | reference/promptcategories.py:148-159 | the classification template holds `{query}` and `{context}` |
| PromptCategories.DefaultShippedShape | reference/promptcategories.py:3-166 | the shipped catalog has the four names in order and exactly those as keys; every category template holds `{context}` (lines 35, 70, 98, 129); the follow-up and classification templates hold their placeholders |
| Templates.FieldsAfterEscape | reference/runinference2.py:205-208 | brace-doubled text yields no field: parsing it and then any rest yields the fields of the rest, and fails exactly when the rest fails |
| Templates.FieldsAfterField | reference/runinference2.py:205-208 | a field `{name}` with a plain name yields `name`, then the fields of what follows; it parses exactly when what follows does |
| Templates.BraceInFieldName | reference/runinference2.py:205-208 | a `{` inside a field's name (`{a{b}`) is a `ValueError`, both when the template is parsed and when it is formatted |
| Templates.FormatAfterEscape | reference/runinference2.py:218-222 | formatting brace-doubled text gives the text back with single braces, followed by the formatted rest |
| Templates.FormatAfterField | reference/runinference2.py:218-222 | formatting a field `{name}` whose name has a value gives that value, followed by the formatted rest |
| PromptCategories.FollowupTemplateFromFields | reference/promptcategories.py:132-146 | a follow-up template built from any literal runs and three plain names parses, and its fields are exactly the three names in order |
| PromptCategories.FollowupTemplateFromFormat | reference/promptcategories.py:132-146 | formatting such a template with a value for each name gives the literal runs in order, with each value in place of its field |
| PromptCategories.IntendedFollowupFields | reference/promptcategories.py:132-146 | the intended follow-up template parses, and its fields are exactly `original_question`, `previous_answer` and `context`, the variables declared at reference/runinference2.py:206 |
| PromptCategories.IntendedFollowupFormat | reference/promptcategories.py:132-146 | formatting the intended template with a value for each declared variable gives the source's literal text, with single braces, and the values in place of the fields |
| PromptCategories.IntendedFollowupText | reference/promptcategories.py:132-146 | with each variable bound to its own placeholder, the intended template formats to the first element of `followup_template` followed by the second |
| Text.Strip | reference/runinference2.py:247 | `strip()` yields a contiguous piece `s[i..j]` of the string; only whitespace comes before `i` and after `j`; the piece neither starts nor ends with whitespace; a string without surrounding whitespace is unchanged |
| Text.Split | reference/runinference2.py:247 | `split("\n")` returns at least one piece, and no piece contains the separator |
| Text.JoinSplit | reference/runinference2.py:224 | joining the pieces of a split with the separator gives back the split string |
| Text.SplitJoin | reference/runinference2.py:247 | splitting a join of separator-free pieces gives back the pieces |
| Text.JoinContainsPart | reference/runinference2.py:172 | each piece of a join occurs in the joined string |
| RunInference.MockRetriever | reference/runinference2.py:31-39 | the mock retriever returns one passage with the fixed text and empty metadata, for any query |
| RunInference.InvokeRetriever | reference/runinference2.py:146-148 | `self.retriever.invoke(query)` gives the mock passage for the mock and the store's search result for a store; with no retriever it raises |
| RunInference.ChainRetrieve | reference/runinference2.py:133-139 | as written, composing the retriever into the chain yields passages exactly when it is a store retriever whose search succeeds, and these are what its `invoke` returns; the mock, which is not a `Runnable`, and `None` raise `TypeError` |
| RunInference.ChainRetrieveCorrected | reference/runinference2.py:133-139 | with the mock made to fit the chain, the chain sees exactly what `invoke` returns, for the mock and for a store; `None` still raises `TypeError` |
| RunInference.FormatDocs | reference/runinference2.py:170-174 | `_format_docs` gives the empty string for no passages, the passage's text for one, and a string containing every passage's text |
| RunInference.FormatDocsSnoc | reference/runinference2.py:172 | the passages are joined in order: one more passage appends a blank line and its text |
| RunInference.Trimmed | reference/runinference2.py:179-180 | the trim keeps a suffix of the history: the last `max` turns when `max >= 1`; all of it when `max == 0`, because `h[-0:]` is the whole list; and all but the first `-max` turns when `max < 0` |
| RunInference.UpdateLength | reference/runinference2.py:176-180 | with `max >= 1` and a history within it, one update gives length `min(old + 2, max)` |
| RunInference.UpdateEndsWithExchange | reference/runinference2.py:176-178 | with room for two turns, the updated history ends with the human turn for the query, then the ai turn for the answer |
| RunInference.TrimmedAbsorbs | reference/runinference2.py:179-180 | the trim is first-in first-out: trimming before more turns arrive and trimming again keeps the same turns as one trim at the end |
| RunInference.ReplayKeepsMostRecent | reference/runinference2.py:176-180 | after any number of updates, the history is everything appended, oldest first, trimmed once |
| RunInference.ReplayLength | test_inference.py:104-122 | from an empty history, `n` exchanges leave `min(2n, max)` turns, so the length reaches the maximum and stays there |
| RunInference.Preview | reference/runinference2.py:193 | a content of more than 100 characters becomes its first 100 characters followed by "..."; shorter content is unchanged |
| RunInference.WithContextSlot | reference/runinference2.py:127-129 | the system prompt always ends up with a `{context}` slot and keeps the original as its prefix; it changes exactly when the original had no slot |
| RunInference.PromptMessages | reference/runinference2.py:115-129 | the messages are the system prompt, then each history turn in order with its role when history is maintained, then the human `{input}` turn |
| RunInference.RegisteredPromptNeedsNoSlot | reference/runinference2.py:127-129 | for a registered category of the shipped catalog, the system message is the prompt unchanged |
| RunInference.ClassifyPromptCategory | reference/runinference2.py:230-250 | the result is a list of lines exactly when the model call succeeds; they form a non-empty list of newline-free lines that join back to the stripped text; on failure the result is the bare string `categories[0]`, or an `IndexError` for an empty catalog |
| RunInference.ClassifyPromptCategoryCorrected | reference/runinference2.py:230-250 | agrees with the code when the model answers; on failure it returns the one-element list of the first category |
| RunInference.GenerateOutcome | reference/runinference2.py:109-157 | on the shipped catalog, generation as written succeeds exactly when classification and the first-line category lookup succeed, the retriever is a store whose search succeeds, and the chat call succeeds; the system message is then the registered prompt, the answer is the model's text, and the context is the retrieved passages |
| RunInference.ClassificationFailureIsApology | reference/runinference2.py:109-167 | as written, a failed classification makes `[0]` take the one-letter initial of the first category name; that is not a key, so generation fails; `query_reasoning` then returns the apology with no passages and leaves the history unchanged |
| RunInference.MockInChainIsApology | reference/runinference2.py:133-167 | as written, with the mock (or no retriever) installed, building the chain raises `TypeError`, so whatever the classification and the model do, `query_reasoning` returns the apology with no passages and leaves the history unchanged |
| RunInference.CorrectedClassificationFallsBack | reference/runinference2.py:248-250 | with the corrected fallback, a failed classification selects the first category's template and goes on to retrieval and generation |
| RunInference.CorrectedAgreesOnClassification | reference/runinference2.py:109-157 | the corrected pipeline equals the one as written whenever classification succeeds and the mock is not installed, so the two corrections change nothing else |
| RunInference.MockRetrieverContext | reference/runinference2.py:31-39 | with the mock made to fit the chain, the pipeline is the one for a store whose every search returns the mock passage (the one as written, once classification succeeds); a successful answer carries that single passage, whose text is the whole context the model saw |
| RunInference.NewPromptTemplate | reference/runinference2.py:205-208 | a tuple template is rejected; a string template is accepted exactly when it parses, and its input variables are then its fields, whatever list was passed |
| RunInference.FollowupWith | reference/runinference2.py:200-228 | the result is `["Could not generate followup questions"]` when the template is rejected, when it asks for a variable other than the three supplied, or when the model call fails; otherwise it is the newline-free lines that join back to the stripped model text; it is never empty |
| RunInference.GenerateFollowupQuestions | reference/runinference2.py:200-228 | as written, the tuple template is rejected, so every call returns `["Could not generate followup questions"]` |
| RunInference.GenerateFollowupQuestionsCorrected | reference/runinference2.py:200-228 | with a string template whose fields are exactly the three declared variables, such as the intended one: the model is asked with the original question; a missing answer or context becomes "No answer available" or "No context available"; a failed model call gives the fallback list; otherwise the result is the non-empty list of newline-free lines that join back to the stripped text |
| RunInference.Inference.constructor | reference/runinference2.py:44-51 | a new session has the given store location and maximum (by default "vectorstore" and 50), an empty history, and the shipped catalog |
| RunInference.Inference.UpdateConversationHistory | reference/runinference2.py:176-180 | the new history is the old one plus the human and ai turns, trimmed; with `max >= 1` it is within the maximum |
| RunInference.Inference.ClearHistory | reference/runinference2.py:182-183 | the history is empty afterwards, so the summary counts 0 messages and keeps the maximum |
| RunInference.Inference.GetHistorySummary | reference/runinference2.py:186-197 | the summary has the count, the configured maximum, and one entry per turn in order, with role "human" or "ai" and the 100-character preview |
| RunInference.Inference.AssembleMessages | reference/runinference2.py:115-129 | the messages built by the loop and the `messages[0]` overwrite equal `PromptMessages` |
| RunInference.Inference.QueryReasoning | reference/runinference2.py:109-167 | with both corrections, never fails; the result always echoes the query; on success it holds the answer and passages, and records the exchange only when history is maintained; on any failure it is the apology with no passages, and the history is untouched |
| RunInference.Inference.RunInference | reference/runinference2.py:92-106 | the same step as `query_reasoning`, whose result it returns |

## Left out

- `_initialize_components` (reference/runinference2.py:54-89) is file-system, environment and client set-up. The model and the retriever are passed to each call instead. As written it cannot reach Chroma or OpenAI, because `os` is never imported (line 3 is commented out). The `NameError` is caught, so the retriever is always `MockRetriever` and the model is `None`. Every query then ends in the apology (Findings rows 1 and 3).
- The LCEL chain, retrieval ranking and generation are foreign library code. Their outcome is the value the `Llm` parameter or the store's search returns.
- The formatting of the classification and chat prompts, and of the follow-up prompt with non-string values such as a list of passages, is part of that value's `Err` case. The follow-up template's parse and its missing-variable check are modelled, by `NewPromptTemplate` and `FollowupWith`.
- `Templates.Fields` ends a field at the first `}` after its `{`. Nested fields inside a format spec (`{a:{b}}`) are not modelled; no template of this code has one.
- `Templates.Fields` does not skip an index in brackets. Python reads `{a[}]}` as the field `a[}]`; the model ends the field at the inner `}`. No template of this code has an index.
- `Templates.Fields` does not check that a conversion character is followed by `}` or `:`. Python rejects `{a!rx}` with `ValueError`; the model reads the field `a`. No template of this code has a conversion.
- `Templates.Format` does not apply format specs or conversions (`{a:>5}`, `{a!r}`); no template of this code has one.
- `RunInference.NewPromptTemplate` keeps the fields in template order. LangChain sorts them, and only membership matters to the missing-variable check.
- `RunInference.GenerateFollowupQuestionsCorrected` is stated for any template whose fields are the three declared variables. `PromptCategories.IntendedFollowupFields` proves that the intended template is one.
- `text or ""`: the output parser always yields a string, so the `None` case is not modelled.
- `getattr(d, "page_content", str(d))` and the `str(docs)` fallback in `_format_docs`: every `Doc` has a string `page_content`, so these paths are not modelled.
- `RunInference.Inference.RunInference`: the internal-error answer of `run_inference` is unreachable, since `query_reasoning` catches every `Exception`. No member states it.
- `RunInference.Inference.QueryReasoning` follows the corrected classification fallback and the corrected mock of the findings below. Under the code as written, a failed classification or the mock leads to the apology. `ClassificationFailureIsApology` and `MockInChainIsApology` prove this for `QueryReasoningAsWritten`.
- The second `invoke` runs after the chat call, as in the code. A store whose search gives different answers to the two calls is not modelled: the search is a function of the query.
- `RunInference.ClassificationFailureIsApology` states the selected key as `[name[0]]`, the first character of the first category name, rather than as the literal "D".
- The session lemmas hold for every catalog with `ShippedShape`, and `DefaultShippedShape` proves the shipped catalog has it. They are not restated for `Default()` itself.
- The accessors are functions of the catalog value, so they cannot change it and give the same result on every call. No separate lemma states this.
- `print` logging, the SQLite module shim (reference/runinference2.py:10-15) and the `__main__` block are not part of this model.
- reference/runinference.py, app.py, azure_fix.py and reference/pubmed.py are not part of this model.

## Findings

| source | as written | input that shows it | evidently intended | confidence | as-written member | corrected member |
|---|---|---|---|---|---|---|
| reference/runinference2.py:250 | on failure `classify_prompt_category` returns the bare string `categories[0]`; `query_reasoning` then takes `[0]` of it, the one-letter string "D", which is not a key, so the call ends in the apology | any query whose classification call raises (for example with `llm` left as `None`) | return `[categories[0]]`, so that the default category's template is used | high, not executed | RunInference.ClassificationFailureIsApology | RunInference.CorrectedClassificationFallsBack |
| reference/promptcategories.py:139-146 | the comma after `"}"` makes `followup_template` a 2-tuple; the template cannot be parsed, so `generate_followup_questions` always returns `["Could not generate followup questions"]` | any call of `generate_followup_questions` | one string, the two literals juxtaposed, with the braces of the JSON sample doubled (`{{`, `}}`); undoubled, the sample would parse as a field named `  question`, which is not supplied, and the call would still fail | high, not executed | RunInference.GenerateFollowupQuestions | RunInference.GenerateFollowupQuestionsCorrected, PromptCategories.IntendedFollowupFields |
| reference/runinference2.py:136 | `MockRetriever` is a plain class, not a LangChain `Runnable`, so `self.retriever \| RunnableLambda(self._format_docs)` raises `TypeError` while the chain is built; `query_reasoning` catches it and returns the apology, so the fallback never yields an answer | any query with the mock installed, which is always the case because `os` is not imported | a mock that fits the chain (a `BaseRetriever` subclass, or `RunnableLambda(self.retriever.invoke)`), so that its placeholder passage becomes the context | high, not executed | RunInference.MockInChainIsApology | RunInference.MockRetrieverContext, RunInference.ChainRetrieveCorrected |
