/**
 * `ner` (promptify/prompts/nlp/ner.py): the named-entity recognition prompt.
 * `repr` is Python's `repr` of one string, left opaque; the label list and
 * each example's entity list are printed with `ListRepr`.
 */
module Ner {
  import opened Text
  import opened PromptText

  const NerDomainIntro := "You are a highly intelligent and accurate "
  const NerDomainSystem :=
    " domain Named-entity recognition(NER) system. You take Passage "
    + "as input and your task is to recognize and extract specific "
    + "types of "
  const NerDomainTyped :=
    " domain named entities in that given passage and classify into "
    + "a set of following predefined entity types:\n"
  const NerIntro :=
    "You are a highly intelligent and accurate Named-entity recognition(NER) "
    + "system. You take Passage as input and your task is to recognize "
    + "and extract specific types of named entities in that given passage "
    + "and classify into a set of following predefined entity types:\n"
  /** The output format after a label list (lines 29 and 32). */
  const NerTypedFormat :=
    "\nYour output format is only [{'T': type of entity from predefined "
    + "entity types, 'E': entity in the input text},...,{'branch' : "
    + "Appropriate branch of the passage ,'group': Appropriate Group "
    + "of the passage}] form, no other form.\n"
  const NerDomainUntyped :=
    " domain named entities in that given passage and classify into "
    + "a set of entity types.\nYour output format is only [{'T': type "
    + "of entity from "
  const NerDomainFormat :=
    " domain, 'E': entity in the input text},...,{'branch' : Appropriate "
    + "branch of the passage,'group': Appropriate Group of the passage}] "
    + "form, no other form.\n"
  /** The header with neither labels nor domain (line 37). */
  const NerPlain :=
    "You are a highly intelligent and accurate Named-entity recognition(NER) "
    + "system. You take Passage as input and your task is to recognize "
    + "and extract specific types of named entities in that given passage "
    + "and classify into a set of entity types.\nYour output format "
    + "is only [{'T': type of entity, 'E': entity in the input text},"
    + "...,{'branch' : Appropriate branch of the passage ,'group': "
    + "Appropriate Group of the passage}] form, no other form.\n"
  /** `default_example`, used when `one_shot` is set (line 43). */
  const NerExample :=
    "Examples:\nInput: The patient had abdominal pain and 30-pound "
    + "weight loss then developed jaundice. He had epigastric pain. "
    + "A thin-slice CT scan was performed, which revealed a pancreatic "
    + "mass with involved lymph nodes and ring enhancing lesions with "
    + "liver metastases\nOutput: [{'T': 'SYMPTOM', 'E': 'abdominal "
    + "pain'}, {'T': 'QUANTITY', 'E': '30-pound'}, {'T': 'SYMPTOM',"
    + " 'E': 'jaundice'}, {'T': 'SYMPTOM', 'E': 'epigastric pain'},"
    + " {'T': 'TEST', 'E': 'thin-slice CT scan'}, {'T': 'ANATOMY', "
    + "'E': 'pancreatic mass'}, {'T': 'ANATOMY', 'E': 'ring enhancing "
    + "lesions'}, {'T': 'ANATOMY', 'E': 'liver'}, {'T': 'DISEASE', "
    + "'E': 'metastases'},{\"branch\":\"Health\",\"group\":\"Clinical "
    + "medicine\"}]\n"

  /**
   * The header `ner` picks from whether labels and a domain are given: each
   * branch's f-string, read as an opening, a middle and a closing part.
   */
  function NerHeader(repr: string -> string, domain: string, labels: seq<string>): string
  {
    if labels != [] then
      if domain != "" then
        (NerDomainIntro + domain + NerDomainSystem + domain) + NerDomainTyped + (ListRepr(repr, labels) + NerTypedFormat)
      else
        NerIntro + (ListRepr(repr, labels) + NerTypedFormat)
    else
      if domain != "" then
        (NerDomainIntro + domain + NerDomainSystem + domain) + NerDomainUntyped + (domain + NerDomainFormat)
      else
        NerPlain
  }

  /**
   * With a domain the header names it twice in its opening sentence; with
   * labels it closes with the label list and the format that restricts the
   * entity types to it; with a domain and no labels the entity type in the
   * format names the domain instead.
   */
  lemma NerHeaderMentions(repr: string -> string, domain: string, labels: seq<string>)
    ensures var h := NerHeader(repr, domain, labels);
      && (domain != "" ==> StartsWith(h, NerDomainIntro + domain + NerDomainSystem + domain))
      && (labels != [] ==> EndsWith(h, ListRepr(repr, labels) + NerTypedFormat))
      && (labels != [] && domain == "" ==> StartsWith(h, NerIntro))
      && (labels == [] && domain != "" ==> EndsWith(h, domain + NerDomainFormat))
  {
    var opening := NerDomainIntro + domain + NerDomainSystem + domain;
    if labels != [] {
      SuffixOfAppend(if domain != "" then opening + NerDomainTyped else NerIntro, ListRepr(repr, labels) + NerTypedFormat);
      if domain != "" {
        PrefixOfAppend(opening, NerDomainTyped);
        PrefixExtend(opening + NerDomainTyped, opening, ListRepr(repr, labels) + NerTypedFormat);
      } else {
        PrefixOfAppend(NerIntro, ListRepr(repr, labels) + NerTypedFormat);
      }
    } else if domain != "" {
      PrefixOfAppend(opening, NerDomainUntyped);
      PrefixExtend(opening + NerDomainUntyped, opening, domain + NerDomainFormat);
      SuffixOfAppend(opening + NerDomainUntyped, domain + NerDomainFormat);
    }
  }

  /** `f"Input: {example[0]}\nOutput: {example[1]}\n"`, the entity list printed as a list. */
  function EntitiesLine(repr: string -> string): ((string, seq<string>)) -> string
  {
    (example: (string, seq<string>)) => "Input: " + example.0 + "\nOutput: " + ListRepr(repr, example.1) + "\n"
  }

  /** What `ner` returns. */
  function NerPrompt(repr: string -> string, textInput: string, domain: string, labels: seq<string>, description: string,
                     oneShot: bool, examples: seq<(string, seq<string>)>): (r: string)
    ensures EndsWith(r, InputTail(textInput))
    ensures StartsWith(r, WithDescription(description, NerHeader(repr, domain, labels)) + "\n")
  {
    ExamplePrompt(WithDescription(description, NerHeader(repr, domain, labels)), "\n",
                  if oneShot then NerExample else "", EntitiesLine(repr), examples, InputTail(textInput))
  }

  /** `one_shot` inserts the fixed example right after the header, before any caller example. */
  lemma NerOneShotInserted(repr: string -> string, textInput: string, domain: string, labels: seq<string>,
                           description: string, examples: seq<(string, seq<string>)>)
    ensures var without := NerPrompt(repr, textInput, domain, labels, description, false, examples);
      Inserted(NerPrompt(repr, textInput, domain, labels, description, true, examples), without,
               |WithDescription(description, NerHeader(repr, domain, labels))| + 1, NerExample)
  {
    var header := WithDescription(description, NerHeader(repr, domain, labels));
    assert NerPrompt(repr, textInput, domain, labels, description, true, examples)
        == ExamplePrompt(header, "\n", NerExample, EntitiesLine(repr), examples, InputTail(textInput));
    assert NerPrompt(repr, textInput, domain, labels, description, false, examples)
        == ExamplePrompt(header, "\n", "", EntitiesLine(repr), examples, InputTail(textInput));
    assert |header| + |"\n"| == |header| + 1;
    ShotInserted(header, "\n", NerExample, EntitiesLine(repr), examples, InputTail(textInput));
  }

  /** Caller examples are inserted, one line each in order, just before the closing input block. */
  lemma NerExamplesInserted(repr: string -> string, textInput: string, domain: string, labels: seq<string>,
                            description: string, oneShot: bool, examples: seq<(string, seq<string>)>)
    ensures var without := NerPrompt(repr, textInput, domain, labels, description, oneShot, []);
      Inserted(NerPrompt(repr, textInput, domain, labels, description, oneShot, examples), without,
               |without| - |InputTail(textInput)|, Lines(EntitiesLine(repr), examples))
  {
    LinesInserted(WithDescription(description, NerHeader(repr, domain, labels)), "\n",
                  if oneShot then NerExample else "", EntitiesLine(repr), examples, InputTail(textInput));
  }

  /** `ner(text_input, domain, labels, description, one_shot, examples)`. */
  method NerMethod(repr: string -> string, textInput: string, domain: string, labels: seq<string>, description: string,
                   oneShot: bool, examples: seq<(string, seq<string>)>) returns (r: string)
    ensures r == NerPrompt(repr, textInput, domain, labels, description, oneShot, examples)
  {
    var header := WithDescription(description, NerHeader(repr, domain, labels));
    var template := header + "\n";
    var shot := if oneShot then NerExample else "";
    template := template + shot;
    AppendEmpty(template);
    if examples != [] {
      template := template + "";
    }
    template := AppendLines(template, EntitiesLine(repr), examples);
    Regroup(header + "\n", shot, Lines(EntitiesLine(repr), examples));
    Regroup4(template, "\nInput: ", textInput, "\nOutput:");
    template := template + "\nInput: " + textInput + "\nOutput:";
    return template;
  }
}
