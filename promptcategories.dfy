/** The prompt catalog of reference/promptcategories.py: four category
    templates keyed by category name, a classification template and a
    follow-up template, all fixed when the catalog is built.

    A `Catalog` value is one `PromptCategories` instance; its accessors read
    the instance and nothing else. `Default()` is the instance the source
    builds, with the template texts written as the same adjacent string
    literals as in the source (Python joins adjacent literals into one string).
    Where a literal holds a placeholder (`{query}`, `{original_question}`, ...)
    the placeholder is split off into a literal of its own, which leaves the
    text unchanged. */
module PromptCategories {
  import opened Results
  import opened Text
  import opened Templates

  /** A `PromptCategories` instance: the `prompt_categories` dict as a map
      together with the order of its keys, and the two other templates. */
  datatype Catalog = Catalog(
    prompts: map<string, string>,
    order: seq<string>,
    followupTemplate: (string, string),
    classificationTemplate: string)

  const DiseaseOverviewName := "Disease Overview & Learning About a Condition"
  const TreatmentRecommendationName := "Treatment Recommendation"
  const DiagnosisWorkupName := "Diagnosis & Workup"
  const ScreeningSurveillanceName := "Screening & Surveillance"

  const ContextPlaceholder := "{context}"

  /** The keys of `prompt_categories` in insertion order, the order in which
      `dict.keys()` yields them. */
  const CategoryNames: seq<string> :=
    [DiseaseOverviewName, TreatmentRecommendationName, DiagnosisWorkupName, ScreeningSurveillanceName]

  /** The template registered under a category name, up to its closing
      `{context}` literal: `disease_overview`, `treatment_recommendation`,
      `diagnosis_workup` and `screening_surveillance` in that order. */
  function CategoryTemplateBody(category: string): string
    requires category in CategoryNames
  {
    if category == DiseaseOverviewName then
      "You are an expert assistant guiding a physician in providing guideline based recommendations for patient care." +
      "To answer the question, take the most recent guideline data as primary source and use any other guidelines papers that were published within 2 years of the primary source for comparison." +
      "If there is no relevant guideline data in the last  2years, use older data, but explicitly mention that there are no recent guidelines on the topic." +
      "Use the following pieces of retrieved context to answer the question" +
      "Provide the answer in the following format: " +
      "\n\n (Definition & Overview) " +
      "    *[Clearly define the disease, including its medical classification, pathophysiology, and epidemiology.]" +
      "\n\n (Causes & Risk Factors) " +
      "    *[Explain known genetic, environmental, infectious, and autoimmune causes, as well as established risk factors.]" +
      "\n\n (Symptoms & Clinical Presentation) " +
      "    *[Describe common and atypical symptoms, disease progression, and how they present in different populations.]" +
      "\n\n (Diagnosis & Workup) " +
      "    *[Outline the standard diagnostic criteria, recommended lab tests, imaging studies, and differential diagnoses.]" +
      "\n\n (Complications & Prognosis) " +
      "    *[Summarize possible disease complications, expected progression, and long-term outcomes.]" +
      "\n\n (Treatment & Management Options) " +
      "    *[Provide an overview of medical, procedural, and lifestyle-based treatment strategies.]" +
      "\n\n (Preventive Strategies) " +
      "    *[Describe evidence-based measures for reducing disease risk, including screening and lifestyle interventions.]" +
      "\n\n (Areas of Uncertainty / Controversies) " +
      "    *[Identify gaps in knowledge, ongoing research debates, and emerging areas of study.]" +
      "\n\n (Relevant Guidelines) " +
      "    *[List guidelines from major medical organizations across North America and Europe that were used to respond this question]" +
      "    *[Provide the guidelines title, Association, Year.]" +
      "    *[If there are no recent guidelines, explicitly mention that in the response.]" +
      "    *[List the guidelines in chronological descending order]" +
      "\n\n (Recent Publications in Leading Journals Relevant to This Topic) " +
      "    *[Provide any additional information that may be relevant to the question which was published in the last 5 years.]" +
      "    *[List the publication title, journal, publication year.]" +
      "\n\n (References) " +
      "    *[Provide citations for all data sources used in the response if they are not already included in the guidelines or recent publications.]"
    else if category == TreatmentRecommendationName then
      "You are an expert assistant guiding a physician in providing guideline based recommendations for patient care." +
      "To answer the question, take the most recent guideline data as primary source and use any other guidelines papers that were published within 2 years of the primary source for comparison." +
      "If there is no relevant guideline data in the last  2years, use older data, but explicitly mention that there are no recent guidelines on the topic." +
      "Use the following pieces of retrieved context to answer the question" +
      "Provide the answer in the following format: " +
      "\n\n (Recommendation) " +
      "    *[Provide the current best-practice treatment based on major guidelines]" +
      "\n\n (Rationale and Supportive Arguments) " +
      "    *[Explain why this treatment is preferred, including clinical trial data and expert consensus]" +
      "\n\n (Important Considerations) " +
      "    *[Address patient-specific factors such as age, comorbidities, contraindications, and economic aspects.]" +
      "\n\n (Areas of Uncertainty / Controversies) " +
      "    *[Highlight treatment-related uncertainties, alternative options, and conflicting evidence]" +
      "\n\n (Complications & Prognosis) " +
      "    *[Summarize possible disease complications, expected progression, and long-term outcomes.]" +
      "\n\n (Treatment & Management Options) " +
      "    *[Provide an overview of medical, procedural, and lifestyle-based treatment strategies.]" +
      "\n\n (Preventive Strategies) " +
      "    *[Describe evidence-based measures for reducing disease risk, including screening and lifestyle interventions.]" +
      "\n\n (Areas of Uncertainty / Controversies) " +
      "    *[Identify gaps in knowledge, ongoing research debates, and emerging areas of study.]" +
      "\n\n (Relevant Guidelines) " +
      "    *[List guidelines from major medical organizations across North America and Europe that were used to respond this question]" +
      "    *[Provide the guidelines title, Association, Year.]" +
      "    *[If there are no recent guidelines, explicitly mention that in the response.]" +
      "    *[List the guidelines in chronological descending order]" +
      "\n\n (Recent Publications in Leading Journals Relevant to This Topic) " +
      "    *[Provide any additional information that may be relevant to the question which was published in the last 5 years.]" +
      "    *[List the publication title, journal, publication year.]" +
      "\n\n (References) " +
      "    *[Provide citations for all data sources used in the response if they are not already included in the guidelines or recent publications.]"
    else if category == DiagnosisWorkupName then
      "You are an expert assistant guiding a physician in providing guideline based recommendations for patient care." +
      "To answer the question, take the most recent guideline data as primary source and use any other guidelines papers that were published within 2 years of the primary source for comparison." +
      "If there is no relevant guideline data in the last  2years, use older data, but explicitly mention that there are no recent guidelines on the topic." +
      "Use the following pieces of retrieved context to answer the question" +
      "Provide the answer in the following format: " +
      "\n\n (Definition & Diagnostic Criteria) " +
      "    *[Clearly state the diagnostic criteria used to confirm the disease.]" +
      "\n\n (Recommended Tests and Procedures) " +
      "    *[List the most reliable lab tests, imaging studies, and histologic evaluations.]" +
      "\n\n (Differential Diagnosis) " +
      "    *[Compare similar conditions and explain how to distinguish them.]" +
      "\n\n (Clinical Presentation & Key Symptoms) " +
      "    *[Describe typical and atypical symptom patterns and how they guide diagnosis.]" +
      "\n\n (Areas of Uncertainty / Controversies) " +
      "    *[Discuss the limitations of current diagnostic methods and emerging alternatives.]" +
      "\n\n (Relevant Guidelines) " +
      "    *[List guidelines from major medical organizations across North America and Europe that were used to respond this question]" +
      "    *[Provide the guidelines title, Association, Year.]" +
      "    *[If there are no recent guidelines, explicitly mention that in the response.]" +
      "    *[List the guidelines in chronological descending order]" +
      "\n\n (Recent Publications in Leading Journals Relevant to This Topic) " +
      "    *[Provide any additional information that may be relevant to the question which was published in the last 5 years.]" +
      "    *[List the publication title, journal, publication year.]" +
      "\n\n (References) " +
      "    *[Provide citations for all data sources used in the response if they are not already included in the guidelines or recent publications.]"
    else
      "You are an expert assistant guiding a physician in providing guideline based recommendations for patient care." +
      "To answer the question, take the most recent guideline data as primary source and use any other guidelines papers that were published within 2 years of the primary source for comparison." +
      "If there is no relevant guideline data in the last  2years, use older data, but explicitly mention that there are no recent guidelines on the topic." +
      "Use the following pieces of retrieved context to answer the question" +
      "Provide the answer in the following format: " +
      "\n\n (Indications for Screening) " +
      "    *[Specify which populations should undergo screening and at what ages or risk thresholds]" +
      "\n\n (Recommended Screening Modalities) " +
      "    *[Describe preferred screening tests, their accuracy, and their advantages and limitations.]" +
      "\n\n (Surveillance Intervals) " +
      "    *[Define recommended monitoring intervals for disease progression or recurrence.]" +
      "\n\n (Risk Stratification & Predictive Factors) " +
      "    *[Explain how clinicians should assess and stratify risk to guide screening decisions.]" +
      "\n\n (Preventive Strategies) " +
      "    *[Describe evidence-based measures for reducing disease risk, including screening and lifestyle interventions.]" +
      "\n\n (Areas of Uncertainty / Controversies) " +
      "    *[Identify uncertainties in screening effectiveness and debated recommendations.]" +
      "\n\n (Relevant Guidelines) " +
      "    *[List guidelines from major medical organizations across North America and Europe that were used to respond this question]" +
      "    *[Provide the guidelines title, Association, Year.]" +
      "    *[If there are no recent guidelines, explicitly mention that in the response.]" +
      "    *[List the guidelines in chronological descending order]" +
      "\n\n (Recent Publications in Leading Journals Relevant to This Topic) " +
      "    *[Provide any additional information that may be relevant to the question which was published in the last 5 years.]" +
      "    *[List the publication title, journal, publication year.]" +
      "\n\n (References) " +
      "    *[Provide citations for all data sources used in the response if they are not already included in the guidelines or recent publications.]"
  }

  /** The template registered under a category name: its body followed by the
      `{context}` literal every category template ends with. */
  function CategoryTemplate(category: string): string
    requires category in CategoryNames
  {
    CategoryTemplateBody(category) + ContextPlaceholder
  }

  /** The literals of the first element of `followup_template`, line by line. */
  const FollowupQuestionPrefix := "Based on the original question: "
  const FollowupAnswerPrefix := "And the previous answer: "
  const FollowupContextPrefix := "With context: "
  const FollowupQuestionLine := FollowupQuestionPrefix + "{original_question}"
  const FollowupAnswerLine := FollowupAnswerPrefix + "{previous_answer}"
  const FollowupContextLine := FollowupContextPrefix + "{context}"
  const FollowupInstructions :=
    "Generate 3 most relevant followup questions that would help explore this topic further." +
    "You must return valid JSON for the three related questions, without any additional text:" +
    "{" +
    "  question: first related question," +
    "  question: second related question," +
    "  question: third related question," +
    "}"

  /** The literal after the stray comma. */
  const FollowupClosingLine := "Make your JSON output concise and valid."

  /** `followup_template` is a 2-tuple, not one string: the comma after the
      literal `"}"` ends its first element. */
  const FollowupTemplate: (string, string) :=
    (FollowupQuestionLine + FollowupAnswerLine + FollowupContextLine + FollowupInstructions,
     FollowupClosingLine)

  /** `classification_template` before its `"Text: {query}"` literal. */
  const ClassificationInstructions :=
    "You are an expert at classifying medical text into categories." +
    "Following are the categories you can classify the text into:" +
    "Disease Overview & Learning About a Condition" +
    "Treatment Recommendation" +
    "Diagnosis & Workup" +
    "Screening & Surveillance" +
    "Provide the category that best fits the text. Only one category should be returned." +
    "Other than the category mentioned above, no other text should be returned."
  const ClassificationTemplate := ClassificationInstructions + "Text: " + "{query}" + "{context}"

  /** The `PromptCategories()` instance. */
  function Default(): Catalog
  {
    Catalog(map c | c in CategoryNames :: CategoryTemplate(c), CategoryNames, FollowupTemplate, ClassificationTemplate)
  }

  /** `get_prompt(category)`: the template registered under `category`, or the
      `KeyError` of the dict lookup. */
  function GetPrompt(cat: Catalog, category: string): Result<string>
  {
    if category in cat.prompts then Ok(cat.prompts[category]) else Err("KeyError")
  }

  /** `get_categories()`: the keys in insertion order. */
  function GetCategories(cat: Catalog): seq<string>
  {
    cat.order
  }

  /** `get_followup_template()`. */
  function GetFollowupTemplate(cat: Catalog): (string, string)
  {
    cat.followupTemplate
  }

  /** `get_classification_template()`. */
  function GetClassificationTemplate(cat: Catalog): string
  {
    cat.classificationTemplate
  }

  /** What the session code relies on in the shipped catalog: its four category
      names in order and exactly those as keys, a `{context}` slot in every
      category template, the three placeholders of the follow-up prompt in the
      first element of its template, and the two of the classification prompt. */
  predicate ShippedShape(cat: Catalog)
  {
    && cat.order == CategoryNames
    && (forall c | c in CategoryNames :: c in cat.prompts)
    && (forall c | c in cat.prompts :: c in CategoryNames)
    && (forall c | c in cat.prompts :: Contains(cat.prompts[c], ContextPlaceholder))
    && Contains(cat.followupTemplate.0, "{original_question}")
    && Contains(cat.followupTemplate.0, "{previous_answer}")
    && Contains(cat.followupTemplate.0, "{context}")
    && Contains(cat.classificationTemplate, "{query}")
    && Contains(cat.classificationTemplate, "{context}")
  }

  /** `get_prompt` on the shipped catalog: a template exactly for the four
      category names, the one written for that name, with a `{context}` slot;
      `KeyError` for every other string. */
  lemma DefaultGetPrompt(category: string)
    ensures GetPrompt(Default(), category).Ok? <==> category in CategoryNames
    ensures category in CategoryNames ==> GetPrompt(Default(), category) == Ok(CategoryTemplate(category))
    ensures category in CategoryNames ==> Contains(GetPrompt(Default(), category).value, ContextPlaceholder)
  {
    if category in CategoryNames {
      ContainsSuffix(CategoryTemplateBody(category), ContextPlaceholder);
    }
  }

  /** `get_categories` on the shipped catalog: the four names, without
      repetition, in declaration order; exactly the keys `get_prompt` accepts. */
  lemma DefaultGetCategories()
    ensures GetCategories(Default()) == [DiseaseOverviewName, TreatmentRecommendationName, DiagnosisWorkupName, ScreeningSurveillanceName]
    ensures GetCategories(Default())[0] == "Disease Overview & Learning About a Condition"
    ensures forall i, j :: 0 <= i < j < |GetCategories(Default())| ==> GetCategories(Default())[i] != GetCategories(Default())[j]
    ensures forall c :: c in GetCategories(Default()) <==> GetPrompt(Default(), c).Ok?
  {
  }

  /** The follow-up template of the shipped catalog: a pair whose first element
      carries all three placeholders the follow-up prompt declares. */
  lemma DefaultFollowupTemplate()
    ensures GetFollowupTemplate(Default()).1 == "Make your JSON output concise and valid."
    ensures Contains(GetFollowupTemplate(Default()).0, "{original_question}")
    ensures Contains(GetFollowupTemplate(Default()).0, "{previous_answer}")
    ensures Contains(GetFollowupTemplate(Default()).0, "{context}")
  {
    var q, a, c, i := FollowupQuestionLine, FollowupAnswerLine, FollowupContextLine, FollowupInstructions;
    ContainsSuffix(FollowupQuestionPrefix, "{original_question}");
    ContainsConcat(q, a, "{original_question}");
    ContainsConcat(q + a, c, "{original_question}");
    ContainsConcat(q + a + c, i, "{original_question}");
    ContainsSuffix(FollowupAnswerPrefix, "{previous_answer}");
    ContainsConcat(q, a, "{previous_answer}");
    ContainsConcat(q + a, c, "{previous_answer}");
    ContainsConcat(q + a + c, i, "{previous_answer}");
    ContainsSuffix(FollowupContextPrefix, "{context}");
    ContainsConcat(q + a, c, "{context}");
    ContainsConcat(q + a + c, i, "{context}");
  }

  /** The classification template of the shipped catalog carries the `{query}`
      and `{context}` placeholders the classification prompt declares. */
  lemma DefaultClassificationTemplate()
    ensures Contains(GetClassificationTemplate(Default()), "{query}")
    ensures Contains(GetClassificationTemplate(Default()), "{context}")
  {
    ContainsSuffix(ClassificationInstructions + "Text: ", "{query}");
    ContainsConcat(ClassificationInstructions + "Text: " + "{query}", "{context}", "{query}");
    ContainsSuffix(ClassificationInstructions + "Text: " + "{query}", "{context}");
  }

  /** The shipped catalog has the shape the session code relies on. */
  lemma DefaultShippedShape()
    ensures ShippedShape(Default())
  {
    forall c | c in Default().prompts ensures Contains(Default().prompts[c], ContextPlaceholder) {
      DefaultGetPrompt(c);
    }
    DefaultFollowupTemplate();
    DefaultClassificationTemplate();
  }

  /** The variables the follow-up prompt declares. */
  const FollowupVariables := ["original_question", "previous_answer", "context"]

  /** A follow-up template in the evidently intended form, from its literal
      runs and the names of its three fields: one string template in which
      every brace of the literal text is doubled, so that it stays literal. */
  function FollowupTemplateFrom(questionPrefix: string, answerPrefix: string, contextPrefix: string,
                                instructions: string, closing: string,
                                question: string, answer: string, context: string): string
  {
    Escape(questionPrefix) + (Placeholder(question) +
    (Escape(answerPrefix) + (Placeholder(answer) +
    (Escape(contextPrefix) + (Placeholder(context) +
    (Escape(instructions) + Escape(closing)))))))
  }

  /** Literal text followed by a field yields the field's name, then the
      fields of what follows. */
  lemma FieldsAfterRun(run: string, name: string, rest: string, fields: seq<string>)
    requires PlainName(name) && Fields(rest) == Ok(fields)
    ensures Fields(Escape(run) + (Placeholder(name) + rest)) == Ok([name] + fields)
  {
    FieldsAfterEscape(run, Placeholder(name) + rest);
    FieldsAfterField(name, rest);
  }

  /** Two runs of literal text yield no field. */
  lemma FieldsOfRuns(first: string, second: string)
    ensures Fields(Escape(first) + Escape(second)) == Ok([])
  {
    assert Escape(second) == Escape(second) + "";
    FieldsAfterEscape(second, "");
    FieldsAfterEscape(first, Escape(second));
  }

  /** Such a template parses, and its fields are exactly the three names, in
      order; no brace of the literal text makes a field. */
  lemma FollowupTemplateFromFields(questionPrefix: string, answerPrefix: string, contextPrefix: string,
                                   instructions: string, closing: string,
                                   question: string, answer: string, context: string)
    requires PlainName(question) && PlainName(answer) && PlainName(context)
    ensures Fields(FollowupTemplateFrom(questionPrefix, answerPrefix, contextPrefix, instructions, closing,
                                        question, answer, context))
         == Ok([question, answer, context])
  {
    var r7 := Escape(instructions) + Escape(closing);
    var r5 := Escape(contextPrefix) + (Placeholder(context) + r7);
    var r3 := Escape(answerPrefix) + (Placeholder(answer) + r5);
    FieldsOfRuns(instructions, closing);
    FieldsAfterRun(contextPrefix, context, r7, []);
    assert [context] + [] == [context];
    FieldsAfterRun(answerPrefix, answer, r5, [context]);
    assert [answer] + [context] == [answer, context];
    FieldsAfterRun(questionPrefix, question, r3, [answer, context]);
    assert [question] + [answer, context] == [question, answer, context];
  }

  /** Literal text followed by a field formats to the text and the field's
      value, then what follows, formatted. */
  lemma FormatAfterRun(run: string, name: string, rest: string, env: map<string, string>, value: string)
    requires PlainName(name) && name in env && Format(rest, env) == Ok(value)
    ensures Format(Escape(run) + (Placeholder(name) + rest), env) == Ok(run + (env[name] + value))
  {
    FormatAfterEscape(run, Placeholder(name) + rest, env);
    FormatAfterField(name, rest, env);
  }

  /** Two runs of literal text format to the two runs. */
  lemma FormatOfRuns(first: string, second: string, env: map<string, string>)
    ensures Format(Escape(first) + Escape(second), env) == Ok(first + second)
  {
    assert Escape(second) == Escape(second) + "";
    FormatAfterEscape(second, "", env);
    assert second + "" == second;
    FormatAfterEscape(first, Escape(second), env);
  }

  /** Formatting such a template with a value for each of the three names
      yields its literal runs, in order, with the values in place of the
      fields: the doubled braces come out single. */
  lemma FollowupTemplateFromFormat(questionPrefix: string, answerPrefix: string, contextPrefix: string,
                                   instructions: string, closing: string,
                                   question: string, answer: string, context: string, env: map<string, string>)
    requires PlainName(question) && PlainName(answer) && PlainName(context)
    requires question in env && answer in env && context in env
    ensures Format(FollowupTemplateFrom(questionPrefix, answerPrefix, contextPrefix, instructions, closing,
                                        question, answer, context), env)
         == Ok(questionPrefix + (env[question] + (answerPrefix + (env[answer]
               + (contextPrefix + (env[context] + (instructions + closing)))))))
  {
    var r7 := Escape(instructions) + Escape(closing);
    var r5 := Escape(contextPrefix) + (Placeholder(context) + r7);
    var r3 := Escape(answerPrefix) + (Placeholder(answer) + r5);
    FormatOfRuns(instructions, closing, env);
    var v5 := contextPrefix + (env[context] + (instructions + closing));
    FormatAfterRun(contextPrefix, context, r7, env, instructions + closing);
    var v3 := answerPrefix + (env[answer] + v5);
    FormatAfterRun(answerPrefix, answer, r5, env, v5);
    FormatAfterRun(questionPrefix, question, r3, env, v3);
  }

  /** The declared variables can stand in a field as they are. */
  lemma VariablesArePlain()
    ensures PlainName("original_question") && PlainName("previous_answer") && PlainName("context")
  {
    OriginalQuestionIsPlain();
    PreviousAnswerIsPlain();
    ContextIsPlain();
  }

  lemma OriginalQuestionIsPlain() ensures PlainName("original_question") {}
  lemma PreviousAnswerIsPlain() ensures PlainName("previous_answer") {}
  lemma ContextIsPlain() ensures PlainName("context") {}

  /** `followup_template` as evidently intended, from the source's literals. */
  function IntendedFollowupTemplate(): string
  {
    FollowupTemplateFrom(FollowupQuestionPrefix, FollowupAnswerPrefix, FollowupContextPrefix,
                         FollowupInstructions, FollowupClosingLine, "original_question", "previous_answer", "context")
  }

  /** The intended follow-up template parses, with exactly the three declared
      variables as fields: the JSON sample no longer makes a field. */
  lemma IntendedFollowupFields()
    ensures Fields(IntendedFollowupTemplate()) == Ok(FollowupVariables)
  {
    VariablesArePlain();
    FollowupTemplateFromFields(FollowupQuestionPrefix, FollowupAnswerPrefix, FollowupContextPrefix,
                               FollowupInstructions, FollowupClosingLine, "original_question", "previous_answer", "context");
  }

  /** Formatting the intended follow-up template with a value for each
      declared variable gives the source's literal text, unescaped, with the
      values in place of the fields. */
  lemma IntendedFollowupFormat(env: map<string, string>)
    requires "original_question" in env && "previous_answer" in env && "context" in env
    ensures Format(IntendedFollowupTemplate(), env)
         == Ok(FollowupQuestionPrefix + (env["original_question"] + (FollowupAnswerPrefix + (env["previous_answer"]
               + (FollowupContextPrefix + (env["context"] + (FollowupInstructions + FollowupClosingLine)))))))
  {
    VariablesArePlain();
    FollowupTemplateFromFormat(FollowupQuestionPrefix, FollowupAnswerPrefix, FollowupContextPrefix,
                               FollowupInstructions, FollowupClosingLine, "original_question", "previous_answer", "context", env);
  }

  /** The intended follow-up template keeps the source's text: formatted with
      each variable bound to its own placeholder, it gives back the two
      elements of `followup_template`, one after the other. */
  lemma IntendedFollowupText(env: map<string, string>)
    requires "original_question" in env && env["original_question"] == "{original_question}"
    requires "previous_answer" in env && env["previous_answer"] == "{previous_answer}"
    requires "context" in env && env["context"] == "{context}"
    ensures Format(IntendedFollowupTemplate(), env) == Ok(FollowupTemplate.0 + FollowupTemplate.1)
  {
    IntendedFollowupFormat(env);
    Regroup(FollowupQuestionPrefix, "{original_question}", FollowupAnswerPrefix, "{previous_answer}",
            FollowupContextPrefix, "{context}", FollowupInstructions, FollowupClosingLine);
  }

  lemma Regroup(a: string, b: string, c: string, d: string, e: string, f: string, g: string, h: string)
    ensures a + (b + (c + (d + (e + (f + (g + h)))))) == (a + b) + (c + d) + (e + f) + g + h
  {
  }
}
