/**
 * `Prompter` (promptify/prompts/nlp/prompter.py): renders a named jinja
 * template, asserting that every template variable is supplied, and sends the
 * prompt to the model together with the keyword arguments `model.run` takes.
 * The jinja environment and the model are opaque collaborators; the names
 * `model.run` accepts (`co_varnames[1:co_argcount]`) are given. Finding a
 * template's variables may raise (jinja's TemplateNotFound for a name with no
 * template file, TemplateSyntaxError for a malformed one), and that exception
 * leaves `generate_prompt` and `fit`.
 */
module TaskPrompter {
  import opened PyValues
  import opened Text
  import opened TemplateVariables

  datatype Collaborators = Collaborators(
    /** `get_template_variables(template_name)`: the variables, or the exception `get_source`/`parse` raise. */
    variablesOf: string -> Result<seq<string>>,
    /** `environment.get_template(template_name).render(**kwargs)`, or the exception rendering raises. */
    render: (string, map<string, PyValue>) -> Result<string>,
    /** `model.run(prompts=prompts, **model_kwargs)`. */
    run: (seq<PyValue>, map<string, PyValue>) -> Result<seq<PyValue>>)

  /** The keyword arguments that name a template variable; they go to the template. */
  function PromptKwargs(kwargs: map<string, PyValue>, promptVariables: seq<string>): (r: map<string, PyValue>)
    ensures forall k :: k in r <==> k in kwargs && k in promptVariables
    ensures forall k :: k in r ==> r[k] == kwargs[k]
  {
    map k | k in kwargs && k in promptVariables :: kwargs[k]
  }

  /** The other keyword arguments that name a parameter of `model.run`; they go to the model. */
  function ModelKwargs(kwargs: map<string, PyValue>, promptVariables: seq<string>, modelVariables: seq<string>)
    : (r: map<string, PyValue>)
    ensures forall k :: k in r <==> k in kwargs && k !in promptVariables && k in modelVariables
    ensures forall k :: k in r ==> r[k] == kwargs[k]
  {
    map k | k in kwargs && k !in promptVariables && k in modelVariables :: kwargs[k]
  }

  /** Element 0 of `model.run(prompts=prompts, **model_kwargs)`. */
  function FirstOutput(io: Collaborators, prompts: seq<PyValue>, modelKwargs: map<string, PyValue>): (r: Result<PyValue>)
    ensures "prompts" in modelKwargs ==> r == Failure(Raised("TypeError"))
    ensures "prompts" !in modelKwargs && io.run(prompts, modelKwargs) == Success([]) ==> r.Failure? && r.error.IndexError?
    ensures r.Success? ==>
      && io.run(prompts, modelKwargs).Success? && io.run(prompts, modelKwargs).value != []
      && r.value == io.run(prompts, modelKwargs).value[0]
    ensures "prompts" !in modelKwargs && io.run(prompts, modelKwargs).Failure? ==>
      r == Failure(io.run(prompts, modelKwargs).error)
    ensures "prompts" !in modelKwargs && io.run(prompts, modelKwargs).Success? && io.run(prompts, modelKwargs).value != [] ==>
      r == Success(io.run(prompts, modelKwargs).value[0])
  {
    if "prompts" in modelKwargs then Failure(Raised("TypeError"))
    else
      match io.run(prompts, modelKwargs)
      case Failure(e) => Failure(e)
      case Success(outputs) => if outputs == [] then Failure(IndexError("list index out of range")) else Success(outputs[0])
  }

  class Prompter {
    const allowedMissingVariables: seq<string>
    const modelVariables: seq<string>
    const io: Collaborators

    /** `Prompter(model, templates_path, allowed_missing_variables)`. */
    constructor (allowedMissingVariables: seq<string>, modelVariables: seq<string>, io: Collaborators)
      ensures this.allowedMissingVariables == allowedMissingVariables
      ensures this.modelVariables == modelVariables && this.io == io
    {
      this.allowedMissingVariables := allowedMissingVariables;
      this.modelVariables := modelVariables;
      this.io := io;
    }

    /** Every template variable is a keyword argument or allowed to be missing. */
    predicate AllCovered(variables: seq<string>, kwargs: map<string, PyValue>)
    {
      forall i :: 0 <= i < |variables| ==> variables[i] in kwargs || variables[i] in allowedMissingVariables
    }

    /**
     * What `generate_prompt(template_name, **kwargs)` gives: the exception of
     * `get_template_variables`, else an AssertionError listing the template
     * variables that are neither keyword arguments nor allowed to be missing,
     * else the exception of rendering, else the stripped rendering.
     */
    function GenerateOutcome(templateName: string, kwargs: map<string, PyValue>): (r: Result<string>)
      ensures io.variablesOf(templateName).Failure? ==> r == Failure(io.variablesOf(templateName).error)
      ensures io.variablesOf(templateName).Success? && !AllCovered(io.variablesOf(templateName).value, kwargs) ==>
        r == Failure(AssertionError(Uncovered(io.variablesOf(templateName).value,
                                              kwargs.Keys + Names(allowedMissingVariables))))
      ensures io.variablesOf(templateName).Success? && AllCovered(io.variablesOf(templateName).value, kwargs) ==>
        var rendered := io.render(templateName, kwargs);
        && (rendered.Failure? ==> r == Failure(rendered.error))
        && (rendered.Success? ==> r == Success(Strip(rendered.value)))
    {
      match io.variablesOf(templateName)
      case Failure(e) => Failure(e)
      case Success(variables) =>
        var covered := kwargs.Keys + Names(allowedMissingVariables);
        NoneUncovered(variables, covered);
        var missing := Uncovered(variables, covered);
        if missing != [] then Failure(AssertionError(missing))
        else
          match io.render(templateName, kwargs)
          case Failure(e) => Failure(e)
          case Success(text) => Success(Strip(text))
    }

    /** `generate_prompt(template_name, **kwargs)`. */
    method GeneratePrompt(templateName: string, kwargs: map<string, PyValue>) returns (r: Result<string>)
      ensures r == GenerateOutcome(templateName, kwargs)
    {
      var variables := io.variablesOf(templateName);
      if variables.Failure? {
        return Failure(variables.error);
      }
      var variablesMissing := CollectUncovered(variables.value, kwargs.Keys + Names(allowedMissingVariables));
      if |variablesMissing| != 0 {
        return Failure(AssertionError(variablesMissing));
      }
      var rendered := io.render(templateName, kwargs);
      if rendered.Failure? {
        return Failure(rendered.error);
      }
      var prompt := Strip(rendered.value);
      return Success(prompt);
    }

    /** The `for variable in kwargs` loop of `fit`: template variables first, then `model.run` parameters, the rest dropped. */
    method PartitionKwargs(kwargs: map<string, PyValue>, promptVariables: seq<string>)
      returns (promptKwargs: map<string, PyValue>, modelKwargs: map<string, PyValue>)
      ensures promptKwargs == PromptKwargs(kwargs, promptVariables)
      ensures modelKwargs == ModelKwargs(kwargs, promptVariables, modelVariables)
    {
      promptKwargs, modelKwargs := map[], map[];
      var remaining := kwargs.Keys;
      while remaining != {}
        invariant remaining <= kwargs.Keys
        invariant forall k :: k in promptKwargs <==> k in kwargs && k !in remaining && k in promptVariables
        invariant forall k :: k in promptKwargs ==> promptKwargs[k] == kwargs[k]
        invariant forall k :: k in modelKwargs <==>
          k in kwargs && k !in remaining && k !in promptVariables && k in modelVariables
        invariant forall k :: k in modelKwargs ==> modelKwargs[k] == kwargs[k]
        decreases |remaining|
      {
        var variable :| variable in remaining;
        if variable in promptVariables {
          promptKwargs := promptKwargs[variable := kwargs[variable]];
        } else if variable in modelVariables {
          modelKwargs := modelKwargs[variable := kwargs[variable]];
        }
        remaining := remaining - {variable};
      }
    }

    /**
     * The template variables `fit` routes by: none for the template name
     * "bypass", otherwise the template's, or the exception finding them raises.
     */
    function PromptVariables(templateName: string): (r: Result<seq<string>>)
      ensures templateName == "bypass" ==> r == Success([])
      ensures templateName != "bypass" ==> r == io.variablesOf(templateName)
    {
      if templateName == "bypass" then Success([]) else io.variablesOf(templateName)
    }

    /**
     * `fit(template_name, **kwargs)`. The exception of finding the variables
     * leaves `fit` first. A "prompt" keyword argument is then sent as it is and
     * no template is rendered; otherwise the template is rendered with the
     * template-variable arguments only.
     */
    method Fit(templateName: string, kwargs: map<string, PyValue>) returns (r: Result<PyValue>)
      requires "template_name" !in kwargs && "self" !in kwargs
      ensures PromptVariables(templateName).Failure? ==> r == Failure(PromptVariables(templateName).error)
      ensures PromptVariables(templateName).Success? && "prompt" in kwargs ==>
        r == FirstOutput(io, [kwargs["prompt"]], ModelKwargs(kwargs, PromptVariables(templateName).value, modelVariables))
      ensures PromptVariables(templateName).Success? && "prompt" !in kwargs ==>
        var promptVariables := PromptVariables(templateName).value;
        var modelKwargs := ModelKwargs(kwargs, promptVariables, modelVariables);
        var generated := GenerateOutcome(templateName, PromptKwargs(kwargs, promptVariables));
        && (generated.Failure? ==> r == Failure(generated.error))
        && (generated.Success? ==> r == FirstOutput(io, [PyStr(generated.value)], modelKwargs))
    {
      var promptVariables: seq<string> := [];
      if templateName != "bypass" {
        var found := io.variablesOf(templateName);
        if found.Failure? {
          return Failure(found.error);
        }
        promptVariables := found.value;
      }
      var promptKwargs, modelKwargs := PartitionKwargs(kwargs, promptVariables);
      var prompt: PyValue;
      if "prompt" in kwargs {
        prompt := kwargs["prompt"];
      } else {
        var generated := GeneratePrompt(templateName, promptKwargs);
        if generated.Failure? {
          return Failure(generated.error);
        }
        prompt := PyStr(generated.value);
      }
      if "prompts" in modelKwargs {
        return Failure(Raised("TypeError"));
      }
      var output := io.run([prompt], modelKwargs);
      if output.Failure? {
        return Failure(output.error);
      }
      if output.value == [] {
        return Failure(IndexError("list index out of range"));
      }
      return Success(output.value[0]);
    }
  }

  /** With the template name "bypass" no keyword argument reaches the template. */
  lemma BypassRendersNothing(kwargs: map<string, PyValue>)
    ensures PromptKwargs(kwargs, []) == map[]
  {
    assert forall k :: k !in PromptKwargs(kwargs, []);
  }

  /** Every keyword argument goes to exactly one place, template variables taking precedence. */
  lemma RoutedOnce(kwargs: map<string, PyValue>, promptVariables: seq<string>, modelVariables: seq<string>, k: string)
    requires k in kwargs
    ensures k in PromptKwargs(kwargs, promptVariables) <==> k in promptVariables
    ensures k in ModelKwargs(kwargs, promptVariables, modelVariables) <==> k !in promptVariables && k in modelVariables
    ensures !(k in PromptKwargs(kwargs, promptVariables) && k in ModelKwargs(kwargs, promptVariables, modelVariables))
  {
  }
}
