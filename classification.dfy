/**
 * `TextClassification` (promptify/prompts/nlp/classification.py): the
 * `binary`, `multiclass` and `multilabel` prompt builders. `repr` is Python's
 * `repr` of one string, left opaque; `str` of a list of strings is `ListRepr`.
 */
module Classification {
  import opened PyValues
  import opened Text
  import opened PromptText

  const BinaryIntro :=
    "You are a highly intelligent and accurate Binary Classification "
    + "system. You take Passage as input and classify that as either "
  const BinaryOr := " or "
  const BinaryFormat :=
    " Category. Your output format is only [{'C': Category}] form,"
    + " no other form.\n"

  const MulticlassIntro :=
    "You are a highly intelligent and accurate Multiclass Classification "
    + "system. You take Passage as input and classify that as one of "
    + "the following appropriate Categories:\n"
  const MulticlassFormat :=
    ". Your output format is only [{'C': Appropriate Category from "
    + "the list of provided Categories}] form, no other form.\n"

  const MultilabelDomainIntro := "You are a highly intelligent and accurate "
  const MultilabelDomainSystem :=
    " domain multi-label classification system. You take Passage "
    + "as input and classify that into "
  const MultilabelIntro :=
    "You are a highly intelligent and accurate multi-label classification "
    + "system. You take Passage as input and classify that into "
  const Appropriate := " appropriate "
  const DomainCategoriesList := " domain Categories:\n"
  const CategoriesList := " appropriate Categories:\n"
  const DomainCategoriesEnd := " domain Categories.\nYour output format is only "
  const CategoriesEnd := " appropriate Categories.\nYour output format is only "
  const FormatIntro := ". Your output format is only "
  /** The multi-label output format as written with `...,'branch'` (lines 109 and 120). */
  const TightFormat :=
    "[{'main class': Main Classification Category ,'1': 2nd level "
    + "Classification Category, '2': 3rd level Classification Category,"
    + "...,'branch' : Appropriate branch of the Passage ,'group': Appropriate "
    + "Group of the Passage}] form, no other form.\n"
  /** The multi-label output format as written with `..., 'branch'` (lines 112 and 118). */
  const SpacedFormat :=
    "[{'main class': Main Classification Category ,'1': 2nd level "
    + "Classification Category, '2': 3rd level Classification Category,"
    + "..., 'branch' : Appropriate branch of the Passage ,'group': "
    + "Appropriate Group of the Passage}] form, no other form.\n"

  const ExamplesHeader := "Examples:\n"
  const MultilabelExample :=
    "Examples:\nInput: The patient is a 93-year-old female with a "
    + "medical history of chronic right hip pain, osteoporosis, hypertension,"
    + " depression, and chronic atrial fibrillation admitted for evaluation "
    + "and management of severe nausea and vomiting and urinary tract "
    + "infection\nOutput: {\"main class\":\"Health\",\"1\":\"Medicine\","
    + "\"2\":\"Patient care\",\"3\":\"Discharge Summary\",\"4\":\"Geriatric "
    + "medicine\",\"5\":\"Chronic pain\",\"6\":\"Osteoporosis\",\"7\":\"Hypertension\","
    + "\"8\":\"Depression\",\"9\":\"Atrial fibrillation\",\"10\":\"Nausea "
    + "and vomiting\",\"11\":\"Urinary tract infection\",\"branch\":\"Health\","
    + "\"group\":\"Clinical medicine\"}\n"

  function BinaryHeader(first: string, second: string): string
  {
    BinaryIntro + first + BinaryOr + second + BinaryFormat
  }

  /** `f"Input: {example[0]}\nOutput: { [{'C': example[1]}] }\n"`. */
  function CategoryLine(repr: string -> string): ((string, string)) -> string
  {
    (example: (string, string)) => "Input: " + example.0 + "\nOutput: " + "[{'C': " + repr(example.1) + "}]" + "\n"
  }

  /** The examples block of `binary` and `multiclass`: nothing for no examples. */
  function ExamplesSection(repr: string -> string, examples: seq<(string, string)>): string
  {
    if examples == [] then "" else ExamplesHeader + Lines(CategoryLine(repr), examples)
  }

  /** The block starts with the "Examples:" header exactly when there are examples, and lists each one in order. */
  lemma ExamplesSectionShape(repr: string -> string, examples: seq<(string, string)>)
    ensures examples == [] <==> ExamplesSection(repr, examples) == ""
    ensures examples != [] ==> StartsWith(ExamplesSection(repr, examples), ExamplesHeader)
    ensures forall i :: 0 <= i < |examples| ==>
      OccursAt(ExamplesSection(repr, examples), CategoryLine(repr)(examples[i]),
               |ExamplesHeader| + |Lines(CategoryLine(repr), examples[..i])|)
  {
    forall i | 0 <= i < |examples|
      ensures OccursAt(ExamplesSection(repr, examples), CategoryLine(repr)(examples[i]),
                       |ExamplesHeader| + |Lines(CategoryLine(repr), examples[..i])|)
    {
      LinesAt(CategoryLine(repr), examples, i);
    }
  }

  /** What `binary` returns; fewer than two labels raise IndexError at `labels[0]` or `labels[1]`. */
  function BinaryPrompt(repr: string -> string, textInput: string, labels: seq<string>, description: string,
                        examples: seq<(string, string)>): (r: Result<string>)
    ensures r.Failure? <==> |labels| < 2
    ensures r.Failure? ==> r.error == IndexError("list index out of range")
    ensures r.Success? ==> EndsWith(r.value, InputTail(textInput))
    ensures r.Success? ==> StartsWith(r.value, WithDescription(description, BinaryHeader(labels[0], labels[1])) + "\n")
  {
    if |labels| < 2 then Failure(IndexError("list index out of range"))
    else
      var header := WithDescription(description, BinaryHeader(labels[0], labels[1]));
      var section := ExamplesSection(repr, examples);
      Framed(header, "\n", section, InputTail(textInput));
      Success(header + "\n" + section + InputTail(textInput))
  }

  /** Supplying examples only inserts their block just before the closing input block. */
  lemma BinaryExamplesInserted(repr: string -> string, textInput: string, labels: seq<string>, description: string,
                               examples: seq<(string, string)>)
    requires |labels| >= 2
    ensures var without := BinaryPrompt(repr, textInput, labels, description, []).value;
      Inserted(BinaryPrompt(repr, textInput, labels, description, examples).value, without,
               |without| - |InputTail(textInput)|, ExamplesSection(repr, examples))
  {
    var header := WithDescription(description, BinaryHeader(labels[0], labels[1]));
    InsertedBefore(header + "\n", ExamplesSection(repr, examples), InputTail(textInput));
  }

  /** `binary` reads only the first two labels: the rest of the list changes nothing. */
  lemma BinaryReadsTwoLabels(repr: string -> string, textInput: string, labels: seq<string>, description: string,
                             examples: seq<(string, string)>)
    requires |labels| >= 2
    ensures BinaryPrompt(repr, textInput, labels, description, examples)
         == BinaryPrompt(repr, textInput, labels[..2], description, examples)
  {
    assert labels[..2][0] == labels[0] && labels[..2][1] == labels[1];
  }

  /** The `if examples:` block of `binary` and `multiclass`: the header, then one line per example. */
  method AppendExamples(repr: string -> string, template: string, examples: seq<(string, string)>) returns (r: string)
    requires examples != []
    ensures r == template + ExamplesSection(repr, examples)
  {
    r := template + "Examples:\n";
    r := AppendLines(r, CategoryLine(repr), examples);
    Regroup(template, "Examples:\n", Lines(CategoryLine(repr), examples));
  }

  /** `binary(text_input, labels, description, examples)`: the template built step by step. */
  method Binary(repr: string -> string, textInput: string, labels: seq<string>, description: string,
                examples: seq<(string, string)>) returns (r: Result<string>)
    ensures r == BinaryPrompt(repr, textInput, labels, description, examples)
  {
    if |labels| < 2 {
      return Failure(IndexError("list index out of range"));
    }
    var template := BinaryIntro + labels[0] + BinaryOr + labels[1] + BinaryFormat;
    if description != "" {
      template := description + "\n" + template;
    }
    assert template == WithDescription(description, BinaryHeader(labels[0], labels[1]));
    template := template + "\n";
    if examples != [] {
      template := AppendExamples(repr, template, examples);
    }
    assert template == WithDescription(description, BinaryHeader(labels[0], labels[1])) + "\n" + ExamplesSection(repr, examples);
    Regroup4(template, "\nInput: ", textInput, "\nOutput:");
    template := template + "\nInput: " + textInput + "\nOutput:";
    return Success(template);
  }

  function MulticlassHeader(repr: string -> string, labels: seq<string>): string
  {
    MulticlassIntro + ListRepr(repr, labels) + MulticlassFormat
  }

  /** What `multiclass` returns: the whole label list is embedded, and there is always a result. */
  function MulticlassPrompt(repr: string -> string, textInput: string, labels: seq<string>, description: string,
                            examples: seq<(string, string)>): (r: string)
    ensures EndsWith(r, InputTail(textInput))
    ensures StartsWith(r, WithDescription(description, MulticlassHeader(repr, labels)) + "\n\n")
  {
    var header := WithDescription(description, MulticlassHeader(repr, labels));
    var section := ExamplesSection(repr, examples);
    Framed(header, "\n\n", section, InputTail(textInput));
    header + "\n\n" + section + InputTail(textInput)
  }

  /** Supplying examples only inserts their block just before the closing input block. */
  lemma MulticlassExamplesInserted(repr: string -> string, textInput: string, labels: seq<string>, description: string,
                                   examples: seq<(string, string)>)
    ensures var without := MulticlassPrompt(repr, textInput, labels, description, []);
      Inserted(MulticlassPrompt(repr, textInput, labels, description, examples), without,
               |without| - |InputTail(textInput)|, ExamplesSection(repr, examples))
  {
    var header := WithDescription(description, MulticlassHeader(repr, labels));
    InsertedBefore(header + "\n\n", ExamplesSection(repr, examples), InputTail(textInput));
  }

  /** `multiclass(text_input, labels, description, examples)`. */
  method Multiclass(repr: string -> string, textInput: string, labels: seq<string>, description: string,
                    examples: seq<(string, string)>) returns (r: string)
    ensures r == MulticlassPrompt(repr, textInput, labels, description, examples)
  {
    var template := MulticlassIntro + ListRepr(repr, labels) + MulticlassFormat;
    if description != "" {
      template := description + "\n" + template;
    }
    template := template + "\n\n";
    if examples != [] {
      template := AppendExamples(repr, template, examples);
    }
    Regroup4(template, "\nInput: ", textInput, "\nOutput:");
    template := template + "\nInput: " + textInput + "\nOutput:";
    return template;
  }

  /**
   * The header `multilabel` picks from whether labels and a domain are given:
   * each branch's f-string, read as an opening naming the system and the
   * number of labels, the category sentence and the output-format sentence.
   */
  function MultilabelHeader(repr: string -> string, domain: string, labels: seq<string>, nOutputLabels: int): string
  {
    var n := IntToString(nOutputLabels);
    if labels != [] then
      if domain != "" then
        (MultilabelDomainIntro + domain + MultilabelDomainSystem + n) + (Appropriate + domain + DomainCategoriesList)
        + (ListRepr(repr, labels) + FormatIntro + TightFormat)
      else
        (MultilabelIntro + n) + CategoriesList + (ListRepr(repr, labels) + FormatIntro + SpacedFormat)
    else
      if domain != "" then
        (MultilabelDomainIntro + domain + MultilabelDomainSystem + n) + (Appropriate + domain) + (DomainCategoriesEnd + SpacedFormat)
      else
        (MultilabelIntro + n) + "" + (CategoriesEnd + TightFormat)
  }

  /**
   * The header always opens with the system's name (naming the domain exactly
   * when one is given) and the number of output labels; it closes with the
   * label list and the format sentence when labels are given, and otherwise
   * with the category sentence ending in a full stop. The format lists the
   * branch with a space (`..., 'branch'`) exactly when one of labels and
   * domain is given.
   */
  lemma MultilabelHeaderMentions(repr: string -> string, domain: string, labels: seq<string>, nOutputLabels: int)
    ensures var h := MultilabelHeader(repr, domain, labels, nOutputLabels);
      var n := IntToString(nOutputLabels);
      var format := if (labels != []) != (domain != "") then SpacedFormat else TightFormat;
      && (domain != "" ==> StartsWith(h, MultilabelDomainIntro + domain + MultilabelDomainSystem + n))
      && (domain == "" ==> StartsWith(h, MultilabelIntro + n))
      && (labels != [] ==> EndsWith(h, ListRepr(repr, labels) + FormatIntro + format))
      && (labels == [] && domain != "" ==> EndsWith(h, DomainCategoriesEnd + format))
      && (labels == [] && domain == "" ==> EndsWith(h, CategoriesEnd + format))
  {
    var n := IntToString(nOutputLabels);
    var opening := if domain != "" then MultilabelDomainIntro + domain + MultilabelDomainSystem + n else MultilabelIntro + n;
    var middle := if labels != [] then (if domain != "" then Appropriate + domain + DomainCategoriesList else CategoriesList)
                  else if domain != "" then Appropriate + domain else "";
    var format := if (labels != []) != (domain != "") then SpacedFormat else TightFormat;
    var closing := if labels != [] then ListRepr(repr, labels) + FormatIntro + format
                   else if domain != "" then DomainCategoriesEnd + format else CategoriesEnd + format;
    assert MultilabelHeader(repr, domain, labels, nOutputLabels) == opening + middle + closing;
    PrefixOfAppend(opening, middle);
    PrefixExtend(opening + middle, opening, closing);
    SuffixOfAppend(opening + middle, closing);
  }

  /** `{str(k): labels[k] for k in range(len(labels))}` printed: keys "0".."k-1" in list order. */
  function LabelDict(repr: string -> string, labels: seq<string>): string
  {
    "{" + Join(", ", seq(|labels|, k requires 0 <= k < |labels| => repr(NatToString(k)) + ": " + repr(labels[k]))) + "}"
  }

  /** `f"Input: {example[0]}\nOutput: { ex_labels }\n"`. */
  function LabelsLine(repr: string -> string): ((string, seq<string>)) -> string
  {
    (example: (string, seq<string>)) => "Input: " + example.0 + "\nOutput: " + LabelDict(repr, example.1) + "\n"
  }

  /** What `multilabel` returns. */
  function MultilabelPrompt(repr: string -> string, textInput: string, domain: string, labels: seq<string>,
                            nOutputLabels: int, oneShot: bool, description: string,
                            examples: seq<(string, seq<string>)>): (r: string)
    ensures EndsWith(r, InputTail(textInput))
    ensures StartsWith(r, WithDescription(description, MultilabelHeader(repr, domain, labels, nOutputLabels)) + "\n")
  {
    ExamplePrompt(WithDescription(description, MultilabelHeader(repr, domain, labels, nOutputLabels)), "\n",
                  if oneShot then MultilabelExample else "", LabelsLine(repr), examples, InputTail(textInput))
  }

  /** `one_shot` inserts the fixed example right after the header, before any caller example. */
  lemma MultilabelOneShotInserted(repr: string -> string, textInput: string, domain: string, labels: seq<string>,
                                  nOutputLabels: int, description: string, examples: seq<(string, seq<string>)>)
    ensures var without := MultilabelPrompt(repr, textInput, domain, labels, nOutputLabels, false, description, examples);
      Inserted(MultilabelPrompt(repr, textInput, domain, labels, nOutputLabels, true, description, examples), without,
               |WithDescription(description, MultilabelHeader(repr, domain, labels, nOutputLabels))| + 1, MultilabelExample)
  {
    ShotInserted(WithDescription(description, MultilabelHeader(repr, domain, labels, nOutputLabels)), "\n",
                 MultilabelExample, LabelsLine(repr), examples, InputTail(textInput));
  }

  /** Caller examples are inserted, one line each in order, just before the closing input block. */
  lemma MultilabelExamplesInserted(repr: string -> string, textInput: string, domain: string, labels: seq<string>,
                                   nOutputLabels: int, oneShot: bool, description: string,
                                   examples: seq<(string, seq<string>)>)
    ensures var without := MultilabelPrompt(repr, textInput, domain, labels, nOutputLabels, oneShot, description, []);
      Inserted(MultilabelPrompt(repr, textInput, domain, labels, nOutputLabels, oneShot, description, examples), without,
               |without| - |InputTail(textInput)|, Lines(LabelsLine(repr), examples))
    ensures forall i :: 0 <= i < |examples| ==>
      OccursAt(Lines(LabelsLine(repr), examples), LabelsLine(repr)(examples[i]), |Lines(LabelsLine(repr), examples[..i])|)
  {
    LinesInserted(WithDescription(description, MultilabelHeader(repr, domain, labels, nOutputLabels)), "\n",
                  if oneShot then MultilabelExample else "", LabelsLine(repr), examples, InputTail(textInput));
    forall i | 0 <= i < |examples|
      ensures OccursAt(Lines(LabelsLine(repr), examples), LabelsLine(repr)(examples[i]), |Lines(LabelsLine(repr), examples[..i])|)
    {
      LinesAt(LabelsLine(repr), examples, i);
    }
  }

  /** `multilabel(text_input, domain, labels, n_output_labels, one_shot, description, examples)`. */
  method Multilabel(repr: string -> string, textInput: string, domain: string, labels: seq<string>,
                    nOutputLabels: int, oneShot: bool, description: string,
                    examples: seq<(string, seq<string>)>) returns (r: string)
    ensures r == MultilabelPrompt(repr, textInput, domain, labels, nOutputLabels, oneShot, description, examples)
  {
    var header := WithDescription(description, MultilabelHeader(repr, domain, labels, nOutputLabels));
    var template := header + "\n";
    var shot := if oneShot then MultilabelExample else "";
    template := template + shot;
    AppendEmpty(template);
    if examples != [] {
      template := template + "";
    }
    template := AppendLines(template, LabelsLine(repr), examples);
    Regroup(header + "\n", shot, Lines(LabelsLine(repr), examples));
    Regroup4(template, "\nInput: ", textInput, "\nOutput:");
    template := template + "\nInput: " + textInput + "\nOutput:";
    return template;
  }
}
