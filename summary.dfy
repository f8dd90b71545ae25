/** `Summary` (promptify/prompts/nlp/summary.py), the summarisation prompt. */
module Summarization {
  import opened Text
  import opened PromptText

  const SummaryIntro := "You are a highly intelligent "
  const SummaryDomainBot :=
    " domain expert Summarization bot. You take Passage as input "
    + "and summarize the passage as a "
  const SummaryExpert := " expert."
  const SummaryPlain :=
    "You are a highly intelligent Summarization bot. You take Passage "
    + "as input and summarize the passage as an expert."
  /** The output format both branches ask for; the f-string's doubled braces render as single ones. */
  const SummaryFormat :=
    " Your output format is only [{'S': Summarization paragraph},"
    + "] form, no other form.\n"

  /** `f"\nPassage: {context}\nOutput:"`. */
  function SummaryTail(context: string): string
  {
    "\nPassage: " + context + "\nOutput:"
  }

  /**
   * What `Summary(context, domain)` returns: with a non-empty domain the header
   * names it twice, otherwise the generic header; either way the same output
   * format and the passage block close it.
   */
  function SummaryPrompt(context: string, domain: string): (r: string)
    ensures domain != "" ==> StartsWith(r, SummaryIntro + domain + SummaryDomainBot)
    ensures domain == "" ==> StartsWith(r, SummaryPlain)
    ensures EndsWith(r, SummaryFormat + SummaryTail(context))
  {
    var opening := if domain != "" then SummaryIntro + domain + SummaryDomainBot else SummaryPlain;
    var middle := if domain != "" then domain + SummaryExpert else "";
    Framed(opening, middle, SummaryFormat, SummaryTail(context));
    Regroup(opening + middle, SummaryFormat, SummaryTail(context));
    SuffixOfAppend(opening + middle, SummaryFormat + SummaryTail(context));
    opening + middle + SummaryFormat + SummaryTail(context)
  }
}
