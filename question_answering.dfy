/**
 * `QA_pipeline` (promptify/prompts/nlp/question_answering.py): `QA_GEN`, the
 * question-answer pair generation prompt, and `QA`, the extractive question
 * answering prompt with its fixed example. `total_questions` and
 * `max_QA_tokens` are printed with `str`, modelled for ints.
 */
module QuestionAnswering {
  import opened Text
  import opened PromptText

  const QaGenDomainIntro := "You are a highly intelligent & complex "
  const QaGenDomainExpert :=
    " domain expert question-answer generative model. You take Passage "
    + "as an input and Summarize it by generating "
  const QaGenDiverse := " high-quality and diverse "
  const QaGenDomainPairs :=
    " domain question-answer pairs from the given passage by imitating "
    + "the way a human asks questions and give answers. Each The Question-Answer "
    + "Pairs tokens are not more than "
  const QaGenIntro :=
    "You are a highly intelligent & complex question-answer generative "
    + "model. You take Passage as an input and Summarize it by generating "
  const QaGenPairs :=
    " high-quality and diverse question-answer pairs from the given "
    + "passage by imitating the way a human asks questions and give "
    + "answers. Each The Question-Answer Pairs tokens are not more "
    + "than "
  const QaGenFormat :=
    " tokens. Your output format is only [{'Q': Question, 'A': Answer}] "
    + "form, no other form.\n"

  /** `f"\nPassage: {context}\nQA-Pairs:"`. */
  function QaGenTail(context: string): string
  {
    "\nPassage: " + context + "\nQA-Pairs:"
  }

  /**
   * What `QA_GEN(context, domain, total_questions, max_QA_tokens)` returns:
   * each branch's f-string read as an opening that ends with the number of
   * questions, a middle part, and the token bound with the output format.
   */
  function QaGenPrompt(context: string, domain: string, totalQuestions: int, maxQaTokens: int): (r: string)
    ensures domain != "" ==> StartsWith(r, QaGenDomainIntro + domain + QaGenDomainExpert + IntToString(totalQuestions))
    ensures domain == "" ==> StartsWith(r, QaGenIntro + IntToString(totalQuestions))
    ensures EndsWith(r, IntToString(maxQaTokens) + QaGenFormat + QaGenTail(context))
  {
    var total := IntToString(totalQuestions);
    var opening := if domain != "" then QaGenDomainIntro + domain + QaGenDomainExpert + total else QaGenIntro + total;
    var middle := if domain != "" then QaGenDiverse + domain + QaGenDomainPairs else QaGenPairs;
    var closing := IntToString(maxQaTokens) + QaGenFormat;
    Framed(opening, middle, closing, QaGenTail(context));
    Regroup(opening + middle, closing, QaGenTail(context));
    SuffixOfAppend(opening + middle, closing + QaGenTail(context));
    opening + middle + closing + QaGenTail(context)
  }

  const QaIntro := "You are a highly intelligent"
  const QaTask :=
    " question answering bot. You take Context and Question as input "
    + "and return the answer from the Paragraph. Retain as much information "
    + "as needed to answer the question at a later time."
  const QaFormat :=
    " Your output format is only {'A' : Extracted Answer} form, no "
    + "other form.\n"
  /** `default_example` of `QA` (lines 45-51), indented as written. */
  const QaExample :=
    "Examples:\n    Context: Beyonc\U{E9} Giselle Knowles-Carter "
    + "(/bi\U{2D0}\U{2C8}j\U{252}nse\U{26A}/ bee-YON-say) (born September "
    + "4, 1981) is an American singer, songwriter, record producer "
    + "and actress. Born and raised in Houston, Texas, she performed "
    + "in various singing and dancing competitions as a child, and "
    + "rose to fame in the late 1990s as lead singer of R&B girl-group "
    + "Destiny\U{2019}s Child.\n    Question: When did Beyonce start "
    + "becoming popular?\n    Answer: {\"A\" : \"in the late 1990s\"}\n"
    + "    Question: What areas did Beyonce compete in when she was "
    + "growing up?\n    Answer: {\"A\" : \"singing and dancing\"}\n"
    + "    "

  /** The header of `QA`: with a domain, the plain header with " {domain} domain" after its first words. */
  function QaHeader(domain: string): string
  {
    if domain != "" then QaIntro + (" " + domain + " domain") + (QaTask + QaFormat) else QaIntro + (QaTask + QaFormat)
  }

  /** A domain only inserts " {domain} domain" after "You are a highly intelligent"; both end with the answer format. */
  lemma QaHeaderDomain(domain: string)
    ensures domain != "" ==> Inserted(QaHeader(domain), QaHeader(""), |QaIntro|, " " + domain + " domain")
    ensures EndsWith(QaHeader(domain), QaFormat)
  {
    AppendEmpty(QaIntro);
    InsertedBefore(QaIntro, " " + domain + " domain", QaTask + QaFormat);
    if domain != "" {
      Regroup(QaIntro + (" " + domain + " domain"), QaTask, QaFormat);
      SuffixOfAppend(QaIntro + (" " + domain + " domain") + QaTask, QaFormat);
    } else {
      Regroup(QaIntro, QaTask, QaFormat);
      SuffixOfAppend(QaIntro + QaTask, QaFormat);
    }
  }

  /** `f"Context: {example[0]}\nQuestion: {example[1]}\nAnswer: {example[2]}\n"`. */
  function QaLine(): ((string, string, string)) -> string
  {
    (example: (string, string, string)) =>
      "Context: " + example.0 + "\nQuestion: " + example.1 + "\nAnswer: " + example.2 + "\n"
  }

  /** `f"\nContext: {context}\nQuestion: {question}\nAnswer:"`. */
  function QaTail(context: string, question: string): string
  {
    "\nContext: " + context + "\nQuestion: " + question + "\nAnswer:"
  }

  /** What `QA(context, question, domain, description, examples)` returns. */
  function QaPrompt(context: string, question: string, domain: string, description: string,
                    examples: seq<(string, string, string)>): (r: string)
    ensures EndsWith(r, QaTail(context, question))
    ensures StartsWith(r, WithDescription(description, QaHeader(domain)) + "\n\n")
  {
    ExamplePrompt(WithDescription(description, QaHeader(domain)), "\n\n", QaExample, QaLine(), examples, QaTail(context, question))
  }

  /** The fixed example is always there, right after the header and the blank line. */
  lemma QaExampleAlwaysIncluded(context: string, question: string, domain: string, description: string,
                                examples: seq<(string, string, string)>)
    ensures OccursAt(QaPrompt(context, question, domain, description, examples), QaExample,
                     |WithDescription(description, QaHeader(domain))| + 2)
  {
    ShotAt(WithDescription(description, QaHeader(domain)), "\n\n", QaExample, QaLine(), examples, QaTail(context, question));
  }

  /** Caller examples are inserted, one line each in order, between the fixed example and the question. */
  lemma QaExamplesInserted(context: string, question: string, domain: string, description: string,
                           examples: seq<(string, string, string)>)
    ensures var without := QaPrompt(context, question, domain, description, []);
      Inserted(QaPrompt(context, question, domain, description, examples), without,
               |without| - |QaTail(context, question)|, Lines(QaLine(), examples))
  {
    LinesInserted(WithDescription(description, QaHeader(domain)), "\n\n", QaExample, QaLine(), examples, QaTail(context, question));
  }

  /** `QA(context, question, domain, description, examples)`. */
  method Qa(context: string, question: string, domain: string, description: string,
            examples: seq<(string, string, string)>) returns (r: string)
    ensures r == QaPrompt(context, question, domain, description, examples)
  {
    var header := WithDescription(description, QaHeader(domain));
    var template := header + "\n\n";
    template := template + QaExample;
    template := AppendLines(template, QaLine(), examples);
    Regroup(header + "\n\n", QaExample, Lines(QaLine(), examples));
    template := template + QaTail(context, question);
    return template;
  }
}
