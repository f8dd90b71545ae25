/**
 * `Prompter` (promptify/prompter/nlp_prompter.py): renders a jinja template
 * with the caller's keyword arguments and default values, checks that every
 * template variable is supplied, calls the model and optionally caches the
 * answer per prompt. The filesystem, jinja and the model are opaque
 * collaborators; each of them may raise, and its exception leaves the
 * prompter unhandled.
 */
module NlpPrompter {
  import opened PyValues
  import opened Text
  import opened TemplateLoading
  import opened TemplateVariables

  /** What the prompter reaches outside itself. */
  datatype Collaborators = Collaborators(
    /** Lines 62-87 of `load_template` for a key not yet loaded; may raise (a missing path). */
    loadFromDisk: string -> Result<TemplateData>,
    /**
     * `meta.find_undeclared_variables(environment.parse(loader.get_source(...)))`
     * of a template, by environment and name, or the TemplateSyntaxError `parse` raises.
     */
    variablesOf: (Option<PyValue>, string) -> Result<seq<string>>,
    /** `template.render(**arguments)`, or the exception rendering raises. */
    render: (PyValue, map<string, PyValue>) -> Result<string>,
    /** `model.run(prompts=...)` and `model.model_output_raw` (the base adapter raises NotImplementedError). */
    run: seq<string> -> Result<seq<PyValue>>,
    outputRaw: PyValue -> Result<PyValue>,
    /** `model.execute_with_retry(prompts=...)` and `model.model_output(output, max_completion_length=...)`. */
    executeWithRetry: seq<string> -> Result<seq<PyValue>>,
    modelOutput: (PyValue, int) -> Result<PyValue>)

  const DefaultAllowedMissing: seq<string> := ["examples", "description", "output_format"]

  const TemplateUndefinedMessage :=
    "ReferenceError: template is not defined. Task template from existing templates such as ner.jinja, qa.jinja etc or provide custom jinja template with absolute path"

  /** `allowed_missing_variables or ["examples", "description", "output_format"]`. */
  function AllowedMissing(given: Option<seq<string>>): (r: seq<string>)
    ensures given == None || given == Some([]) ==> r == DefaultAllowedMissing
    ensures given.Some? && given.value != [] ==> r == given.value
  {
    if given.Some? && given.value != [] then given.value else DefaultAllowedMissing
  }

  /** `defaults.update(new_defaults)`: new keys win, the other keys keep their values. */
  function Merged(defaults: map<string, PyValue>, newDefaults: map<string, PyValue>): (r: map<string, PyValue>)
    ensures r.Keys == defaults.Keys + newDefaults.Keys
    ensures forall k :: k in newDefaults ==> r[k] == newDefaults[k]
    ensures forall k :: k in defaults && k !in newDefaults ==> r[k] == defaults[k]
  {
    defaults + newDefaults
  }

  /** Starting from no defaults, an update leaves exactly the new mapping. */
  lemma MergedIntoEmpty(newDefaults: map<string, PyValue>)
    ensures Merged(map[], newDefaults) == newDefaults
  {
  }

  /** The names that count as supplied: the keyword arguments with `text_input`, the allowed-missing ones and the defaults. */
  function Covered(kwargs: map<string, PyValue>, allowed: seq<string>, defaults: map<string, PyValue>): set<string>
  {
    kwargs.Keys + {"text_input"} + Names(allowed) + defaults.Keys
  }

  function MissingMessage(missing: seq<string>): string
  {
    "Missing required variables in template " + Join(", ", missing)
  }

  /** `kwargs["text_input"] = text_input; kwargs.update(default_variable_values)`. */
  function RenderArguments(kwargs: map<string, PyValue>, textInput: string, defaults: map<string, PyValue>): (r: map<string, PyValue>)
    ensures r.Keys == kwargs.Keys + {"text_input"} + defaults.Keys
    ensures forall k :: k in defaults ==> r[k] == defaults[k]
    ensures "text_input" !in defaults ==> r["text_input"] == PyStr(textInput)
    ensures forall k :: k in kwargs && k !in defaults && k != "text_input" ==> r[k] == kwargs[k]
  {
    kwargs["text_input" := PyStr(textInput)] + defaults
  }

  /**
   * Lines 123-139 of `generate_prompt`, once the template and its variables are
   * known: the missing-variable ValueError, else the exception of rendering,
   * else the stripped rendering.
   */
  function PromptOutcome(render: (PyValue, map<string, PyValue>) -> Result<string>, template: PyValue,
                         variables: seq<string>, textInput: string, kwargs: map<string, PyValue>, allowed: seq<string>,
                         defaults: map<string, PyValue>): (r: Result<string>)
    ensures (exists i :: 0 <= i < |variables| && variables[i] !in Covered(kwargs, allowed, defaults)) ==>
      r == Failure(ValueError(MissingMessage(Uncovered(variables, Covered(kwargs, allowed, defaults)))))
    ensures (forall i :: 0 <= i < |variables| ==> variables[i] in Covered(kwargs, allowed, defaults)) ==>
      var rendered := render(template, RenderArguments(kwargs, textInput, defaults));
      && (rendered.Failure? ==> r == Failure(rendered.error))
      && (rendered.Success? ==> r == Success(Strip(rendered.value)))
  {
    var missing := Uncovered(variables, Covered(kwargs, allowed, defaults));
    NoneUncovered(variables, Covered(kwargs, allowed, defaults));
    if missing != [] then Failure(ValueError(MissingMessage(missing)))
    else
      match render(template, RenderArguments(kwargs, textInput, defaults))
      case Failure(e) => Failure(e)
      case Success(text) => Success(Strip(text))
  }

  /** The reported names are exactly the template variables nothing supplies. */
  lemma MissingNamesExact(variables: seq<string>, kwargs: map<string, PyValue>, allowed: seq<string>,
                          defaults: map<string, PyValue>, v: string)
    ensures v in Uncovered(variables, Covered(kwargs, allowed, defaults)) <==>
      v in variables && v !in kwargs && v != "text_input" && v !in allowed && v !in defaults
  {
    UncoveredMembers(variables, Covered(kwargs, allowed, defaults));
  }

  /** `[convert(output) for output in response]`: left to right, the first exception leaves the comprehension. */
  function Outputs(convert: PyValue -> Result<PyValue>, response: seq<PyValue>): Result<seq<PyValue>>
  {
    if response == [] then Success([])
    else
      match convert(response[0])
      case Failure(e) => Failure(e)
      case Success(v) =>
        match Outputs(convert, response[1..])
        case Failure(e) => Failure(e)
        case Success(vs) => Success([v] + vs)
  }

  /** The outputs are produced exactly when every element converts, and then they are the converted elements, in order. */
  lemma {:induction false} OutputsShape(convert: PyValue -> Result<PyValue>, response: seq<PyValue>)
    ensures Outputs(convert, response).Success? <==> forall i :: 0 <= i < |response| ==> convert(response[i]).Success?
    ensures Outputs(convert, response).Success? ==>
      && |Outputs(convert, response).value| == |response|
      && forall i :: 0 <= i < |response| ==> Outputs(convert, response).value[i] == convert(response[i]).value
  {
    if response != [] {
      var rest := response[1..];
      OutputsShape(convert, rest);
      assert forall i :: 0 < i < |response| ==> response[i] == rest[i - 1];
    }
  }

  /** Otherwise the exception is the one raised for the first element that does not convert. */
  lemma {:induction false} OutputsFailure(convert: PyValue -> Result<PyValue>, response: seq<PyValue>)
    requires Outputs(convert, response).Failure?
    ensures exists i :: && 0 <= i < |response|
                        && convert(response[i]) == Failure(Outputs(convert, response).error)
                        && forall j :: 0 <= j < i ==> convert(response[j]).Success?
  {
    var rest := response[1..];
    if convert(response[0]).Success? {
      OutputsFailure(convert, rest);
      var i :| && 0 <= i < |rest|
               && convert(rest[i]) == Failure(Outputs(convert, rest).error)
               && forall j :: 0 <= j < i ==> convert(rest[j]).Success?;
      assert convert(response[i + 1]) == convert(rest[i]);
      assert forall j :: 0 < j <= i ==> response[j] == rest[j - 1];
    } else {
      assert convert(response[0]) == Failure(Outputs(convert, response).error);
    }
  }

  /** `raw_fit(prompt)`: the model's response, each element through `model_output_raw`. */
  function RawFit(io: Collaborators, prompt: string): (r: Result<seq<PyValue>>)
    ensures io.run([prompt]).Failure? ==> r == Failure(io.run([prompt]).error)
    ensures io.run([prompt]).Success? ==> r == Outputs(io.outputRaw, io.run([prompt]).value)
  {
    match io.run([prompt])
    case Success(response) => Outputs(io.outputRaw, response)
    case Failure(e) => Failure(e)
  }

  /** Lines 167-173 of `fit`: the response of `execute_with_retry`, each element through `model_output`. */
  function ModelAnswer(io: Collaborators, prompt: string, maxCompletionLength: int): (r: Result<seq<PyValue>>)
    ensures io.executeWithRetry([prompt]).Failure? ==> r == Failure(io.executeWithRetry([prompt]).error)
    ensures io.executeWithRetry([prompt]).Success? ==>
      r == Outputs(o => io.modelOutput(o, maxCompletionLength), io.executeWithRetry([prompt]).value)
  {
    match io.executeWithRetry([prompt])
    case Success(response) => Outputs(o => io.modelOutput(o, maxCompletionLength), response)
    case Failure(e) => Failure(e)
  }

  /**
   * Lines 163-177 of `fit`: with `cache_prompt` the prompt cache is a memo
   * table keyed by the prompt; without it the cache is neither read nor written.
   */
  function CachedAnswer(cache: map<string, seq<PyValue>>, cachePrompt: bool, prompt: string,
                        computed: Result<seq<PyValue>>): (r: (map<string, seq<PyValue>>, Result<seq<PyValue>>))
    ensures cachePrompt && prompt in cache ==> r == (cache, Success(cache[prompt]))
    ensures !(cachePrompt && prompt in cache) ==> r.1 == computed
    ensures cachePrompt && computed.Success? ==> prompt in r.0 && r.0 == cache[prompt := r.1.value]
    ensures !cachePrompt || computed.Failure? ==> r.0 == cache
  {
    if cachePrompt then Memo(cache, prompt, computed) else (cache, computed)
  }

  /** A cached prompt is answered the same way however the model would answer now. */
  lemma CachedAnswerIgnoresModel(cache: map<string, seq<PyValue>>, prompt: string,
                                 computed: Result<seq<PyValue>>, later: Result<seq<PyValue>>)
    requires CachedAnswer(cache, true, prompt, computed).1.Success?
    ensures CachedAnswer(CachedAnswer(cache, true, prompt, computed).0, true, prompt, later)
         == CachedAnswer(cache, true, prompt, computed)
  {
    MemoOnce(cache, prompt, computed, later);
  }

  class Prompter {
    const templatePath: Option<string>
    const rawPrompt: bool
    const maxCompletionLength: int
    const cachePrompt: bool
    const io: Collaborators
    var promptCache: map<string, seq<PyValue>>
    var loadedTemplates: map<string, TemplateData>
    var allowedMissingVariables: seq<string>
    var defaultVariableValues: map<string, PyValue>
    var promptVariablesMap: map<string, seq<string>>

    /** `Prompter(model, template, raw_prompt, allowed_missing_variables, default_variable_values, ...)`. */
    constructor (templatePath: Option<string>, rawPrompt: bool, allowedMissing: Option<seq<string>>,
                 defaults: Option<map<string, PyValue>>, maxCompletionLength: int, cachePrompt: bool,
                 io: Collaborators)
      ensures this.templatePath == templatePath && this.rawPrompt == rawPrompt
      ensures this.maxCompletionLength == maxCompletionLength && this.cachePrompt == cachePrompt && this.io == io
      ensures promptCache == map[] && loadedTemplates == map[] && promptVariablesMap == map[]
      ensures allowedMissingVariables == AllowedMissing(allowedMissing)
      ensures defaultVariableValues == if defaults.Some? then defaults.value else map[]
    {
      this.templatePath := templatePath;
      this.rawPrompt := rawPrompt;
      this.maxCompletionLength := maxCompletionLength;
      this.cachePrompt := cachePrompt;
      this.io := io;
      promptCache := map[];
      loadedTemplates := map[];
      allowedMissingVariables := if allowedMissing.Some? && allowedMissing.value != [] then allowedMissing.value
                                 else ["examples", "description", "output_format"];
      defaultVariableValues := if defaults.Some? then defaults.value else map[];
      promptVariablesMap := map[];
    }

    /** `update_default_variable_values(new_defaults)`. */
    method UpdateDefaultVariableValues(newDefaults: map<string, PyValue>)
      modifies this`defaultVariableValues
      ensures defaultVariableValues == Merged(old(defaultVariableValues), newDefaults)
    {
      defaultVariableValues := defaultVariableValues + newDefaults;
    }

    /** `load_template(template)`. */
    method LoadTemplate(template: string) returns (r: Result<TemplateData>)
      modifies this`loadedTemplates
      ensures (loadedTemplates, r) == Memo(old(loadedTemplates), template, io.loadFromDisk(template))
    {
      if template in loadedTemplates {
        return Success(loadedTemplates[template]);
      }
      var templateData := io.loadFromDisk(template);
      if templateData.Failure? {
        return templateData;
      }
      loadedTemplates := loadedTemplates[template := templateData.value];
      return Success(loadedTemplates[template]);
    }

    /** `get_template_variables(environment, template_name)`, memoised by template name. */
    method GetTemplateVariables(environment: Option<PyValue>, templateName: string) returns (r: Result<seq<string>>)
      modifies this`promptVariablesMap
      ensures (promptVariablesMap, r) == Memo(old(promptVariablesMap), templateName, io.variablesOf(environment, templateName))
    {
      if templateName in promptVariablesMap {
        return Success(promptVariablesMap[templateName]);
      }
      var undeclaredVariables := io.variablesOf(environment, templateName);
      if undeclaredVariables.Failure? {
        return undeclaredVariables;
      }
      promptVariablesMap := promptVariablesMap[templateName := undeclaredVariables.value];
      return undeclaredVariables;
    }

    /**
     * What `generate_prompt(text_input, **kwargs)` leaves in the two memo tables
     * and returns. With no template path, `os.path.isfile(None)` raises TypeError.
     */
    function Generated(textInput: string, kwargs: map<string, PyValue>)
      : (r: (map<string, TemplateData>, map<string, seq<string>>, Result<string>))
      reads this
      ensures forall k :: k in loadedTemplates ==> k in r.0 && r.0[k] == loadedTemplates[k]
      ensures forall k :: k in promptVariablesMap ==> k in r.1 && r.1[k] == promptVariablesMap[k]
      ensures r.2.Success? ==>
        && templatePath.Some? && templatePath.value in r.0
        && var rendered := io.render(r.0[templatePath.value].template,
                                     RenderArguments(kwargs, textInput, defaultVariableValues));
           rendered.Success? && r.2.value == Strip(rendered.value)
      ensures (&& templatePath.Some? && templatePath.value in loadedTemplates
               && loadedTemplates[templatePath.value].templateName in promptVariablesMap) ==>
        var data := loadedTemplates[templatePath.value];
        r == (loadedTemplates, promptVariablesMap,
              PromptOutcome(io.render, data.template, promptVariablesMap[data.templateName], textInput, kwargs,
                            allowedMissingVariables, defaultVariableValues))
    {
      match templatePath
      case None => (loadedTemplates, promptVariablesMap, Failure(Raised("TypeError")))
      case Some(path) =>
        var load := Memo(loadedTemplates, path, io.loadFromDisk(path));
        match load.1
        case Failure(e) => (load.0, promptVariablesMap, Failure(e))
        case Success(data) =>
          var variables := Memo(promptVariablesMap, data.templateName, io.variablesOf(data.environment, data.templateName));
          match variables.1
          case Failure(e) => (load.0, variables.0, Failure(e))
          case Success(names) =>
            (load.0, variables.0,
             PromptOutcome(io.render, data.template, names, textInput, kwargs,
                           allowedMissingVariables, defaultVariableValues))
    }

    /** `generate_prompt(text_input, **kwargs)`. */
    method GeneratePrompt(textInput: string, kwargs: map<string, PyValue>) returns (r: Result<string>)
      modifies this`loadedTemplates, this`promptVariablesMap
      ensures (loadedTemplates, promptVariablesMap, r) == old(Generated(textInput, kwargs))
    {
      if templatePath.None? {
        return Failure(Raised("TypeError"));
      }
      var loader := LoadTemplate(templatePath.value);
      if loader.Failure? {
        return Failure(loader.error);
      }
      var found := GetTemplateVariables(loader.value.environment, loader.value.templateName);
      if found.Failure? {
        return Failure(found.error);
      }
      var variables := found.value;
      var arguments := kwargs["text_input" := PyStr(textInput)];
      var covered := arguments.Keys + Names(allowedMissingVariables) + defaultVariableValues.Keys;
      assert covered == Covered(kwargs, allowedMissingVariables, defaultVariableValues);
      var variablesMissing := CollectUncovered(variables, covered);
      if variablesMissing != [] {
        return Failure(ValueError("Missing required variables in template " + Join(", ", variablesMissing)));
      }
      arguments := arguments + defaultVariableValues;
      var rendered := io.render(loader.value.template, arguments);
      if rendered.Failure? {
        return Failure(rendered.error);
      }
      var prompt := Strip(rendered.value);
      return Success(prompt);
    }

    /** The template path is truthy. */
    predicate TemplateDefined()
      reads this
    {
      templatePath.Some? && templatePath.value != ""
    }

    /** `fit(text_input, **kwargs)`. */
    method Fit(textInput: string, kwargs: map<string, PyValue>) returns (r: Result<seq<PyValue>>)
      modifies this`loadedTemplates, this`promptVariablesMap, this`promptCache
      ensures rawPrompt ==>
        && r == RawFit(io, textInput)
        && unchanged(this`loadedTemplates, this`promptVariablesMap, this`promptCache)
      ensures !rawPrompt && !TemplateDefined() ==>
        && r == Failure(ValueError(TemplateUndefinedMessage))
        && unchanged(this`loadedTemplates, this`promptVariablesMap, this`promptCache)
      ensures !rawPrompt && TemplateDefined() ==>
        var g := old(Generated(textInput, kwargs));
        && loadedTemplates == g.0 && promptVariablesMap == g.1
        && (g.2.Failure? ==> r == Failure(g.2.error) && promptCache == old(promptCache))
        && (g.2.Success? ==>
              (promptCache, r) == CachedAnswer(old(promptCache), cachePrompt, g.2.value, ModelAnswer(io, g.2.value, maxCompletionLength)))
    {
      if rawPrompt {
        return RawFit(io, textInput);
      }
      if !TemplateDefined() {
        return Failure(ValueError(TemplateUndefinedMessage));
      }
      var prompt := GeneratePrompt(textInput, kwargs);
      if prompt.Failure? {
        return Failure(prompt.error);
      }
      if cachePrompt && prompt.value in promptCache {
        var output := promptCache[prompt.value];
        return Success(output);
      }
      var outputs := ModelAnswer(io, prompt.value, maxCompletionLength);
      if cachePrompt && outputs.Success? {
        promptCache := promptCache[prompt.value := outputs.value];
      }
      return outputs;
    }
  }
}
