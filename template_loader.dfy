/**
 * `TemplateLoader` (promptify/prompter/template_loader.py): the
 * `loaded_templates` memo of `load_template` and the first-match
 * `search_model`. Reading template files, their metadata and jinja objects
 * are opaque: a jinja `Template` is a `PyValue` produced by `compile`, and
 * `_load_template_from_path` is `fromPath`, which may raise.
 */
module TemplateLoading {
  import opened PyValues

  /** The dict `load_template` returns and stores. */
  datatype TemplateData = TemplateData(
    templateName: string,
    templateDir: Option<string>,
    environment: Option<PyValue>,
    template: PyValue)

  /** The entry built for `from_string=True`. */
  function FromStringData(compile: string -> PyValue, template: string): (d: TemplateData)
    ensures d.templateName == "from_string" && d.templateDir == None && d.environment == None
    ensures d.template == compile(template)
  {
    TemplateData("from_string", None, None, compile(template))
  }

  /**
   * A memo table lookup, `if key in memo: return memo[key]` followed by
   * `memo[key] = computed; return memo[key]`: the new table and the answer.
   * `computed` is what computing the entry gives; a failure stores nothing.
   */
  function Memo<K, V>(memo: map<K, V>, key: K, computed: Result<V>): (r: (map<K, V>, Result<V>))
    ensures key in memo ==> r == (memo, Success(memo[key]))
    ensures key !in memo ==> r.1 == computed
    ensures r.1.Success? ==> key in r.0 && r.0 == memo[key := r.1.value]
    ensures r.1.Failure? ==> r.0 == memo
  {
    if key in memo then (memo, Success(memo[key]))
    else
      match computed
      case Success(v) => (memo[key := v], computed)
      case Failure(_) => (memo, computed)
  }

  /** Once an entry is stored, asking again returns it and changes nothing, however it would be computed now. */
  lemma MemoOnce<K, V>(memo: map<K, V>, key: K, computed: Result<V>, later: Result<V>)
    requires Memo(memo, key, computed).1.Success?
    ensures Memo(Memo(memo, key, computed).0, key, later) == Memo(memo, key, computed)
  {
  }

  /** Filling one key leaves every other stored entry as it was. */
  lemma MemoKeepsOthers<K, V>(memo: map<K, V>, key: K, computed: Result<V>, other: K)
    requires other != key && other in memo
    ensures other in Memo(memo, key, computed).0 && Memo(memo, key, computed).0[other] == memo[other]
  {
  }

  /** `load_template(template, model_name, from_string)` on the memo `loaded`: the new memo and the answer. */
  function LoadStep(loaded: map<string, TemplateData>, template: string, modelName: string, fromString: bool,
                    compile: string -> PyValue,
                    fromPath: (string, string) -> Result<TemplateData>): (r: (map<string, TemplateData>, Result<TemplateData>))
    ensures template in loaded ==> r == (loaded, Success(loaded[template]))
    ensures template !in loaded && fromString ==> r.1 == Success(FromStringData(compile, template))
    ensures template !in loaded && !fromString ==> r.1 == fromPath(template, modelName)
    ensures r.1.Success? ==> template in r.0 && r.0 == loaded[template := r.1.value]
    ensures r.1.Failure? ==> r.0 == loaded
  {
    Memo(loaded, template, if fromString then Success(FromStringData(compile, template)) else fromPath(template, modelName))
  }

  /**
   * Once a template key is loaded, later loads of it return the stored entry
   * and change nothing, whatever `model_name` and `from_string` they pass.
   */
  lemma LoadedOnce(loaded: map<string, TemplateData>, template: string, modelName: string, fromString: bool,
                   modelName2: string, fromString2: bool,
                   compile: string -> PyValue, fromPath: (string, string) -> Result<TemplateData>)
    requires LoadStep(loaded, template, modelName, fromString, compile, fromPath).1.Success?
    ensures var first := LoadStep(loaded, template, modelName, fromString, compile, fromPath);
      LoadStep(first.0, template, modelName2, fromString2, compile, fromPath) == first
  {
    MemoOnce(loaded, template,
             if fromString then Success(FromStringData(compile, template)) else fromPath(template, modelName),
             if fromString2 then Success(FromStringData(compile, template)) else fromPath(template, modelName2));
  }

  /** One entry of a template's `metadata.json`: its `models` list and the rest of its fields. */
  datatype ModelSample = ModelSample(models: seq<string>, fields: map<string, PyValue>)

  /** The index of the first sample whose `models` contains `modelName`, or `|data|` if none does. */
  function FirstMatch(data: seq<ModelSample>, modelName: string): (i: nat)
    ensures i <= |data|
    ensures forall j :: 0 <= j < i ==> modelName !in data[j].models
    ensures i < |data| ==> modelName in data[i].models
  {
    if data == [] then 0
    else if modelName in data[0].models then 0
    else
      var rest := FirstMatch(data[1..], modelName);
      assert forall j :: 1 <= j < rest + 1 ==> data[j] == data[1..][j - 1];
      rest + 1
  }

  /** Every sample's `models`, concatenated in order. */
  function AllModels(data: seq<ModelSample>): seq<string>
  {
    if data == [] then [] else AllModels(data[..|data| - 1]) + data[|data| - 1].models
  }

  /** A model name is listed somewhere exactly when it is in the concatenation. */
  lemma {:induction false} AllModelsMembers(data: seq<ModelSample>, modelName: string)
    ensures modelName in AllModels(data) <==> exists j :: 0 <= j < |data| && modelName in data[j].models
  {
    if data != [] {
      var init := data[..|data| - 1];
      AllModelsMembers(init, modelName);
      if exists j :: 0 <= j < |init| && modelName in init[j].models {
        var j :| 0 <= j < |init| && modelName in init[j].models;
        assert data[j] == init[j];
      }
      if exists j :: 0 <= j < |data| && modelName in data[j].models {
        var j :| 0 <= j < |data| && modelName in data[j].models;
        if j < |init| { assert init[j] == data[j]; }
      }
    }
  }

  /** `search_model(data, model_name)`. */
  method SearchModel(data: seq<ModelSample>, modelName: string) returns (r: Result<ModelSample>)
    ensures FirstMatch(data, modelName) < |data| ==> r == Success(data[FirstMatch(data, modelName)])
    ensures FirstMatch(data, modelName) == |data| ==> r == Failure(ModelNotFound(AllModels(data)))
  {
    var allModels: seq<string> := [];
    for i := 0 to |data|
      invariant allModels == AllModels(data[..i])
      invariant forall j :: 0 <= j < i ==> modelName !in data[j].models
    {
      if modelName in data[i].models {
        return Success(data[i]);
      }
      assert data[..i + 1][..i] == data[..i];
      allModels := allModels + data[i].models;
    }
    assert data[..|data|] == data;
    return Failure(ModelNotFound(allModels));
  }

  class TemplateLoader {
    var loadedTemplates: map<string, TemplateData>

    /** `TemplateLoader()`: nothing loaded yet. */
    constructor ()
      ensures loadedTemplates == map[]
    {
      loadedTemplates := map[];
    }

    /** `load_template(template, model_name, from_string)`. */
    method LoadTemplate(template: string, modelName: string, fromString: bool,
                        compile: string -> PyValue,
                        fromPath: (string, string) -> Result<TemplateData>) returns (r: Result<TemplateData>)
      modifies this
      ensures (loadedTemplates, r) == LoadStep(old(loadedTemplates), template, modelName, fromString, compile, fromPath)
    {
      if template in loadedTemplates {
        return Success(loadedTemplates[template]);
      }
      var templateData;
      if fromString {
        templateData := TemplateData("from_string", None, None, compile(template));
      } else {
        var loaded := fromPath(template, modelName);
        if loaded.Failure? {
          return loaded;
        }
        templateData := loaded.value;
      }
      loadedTemplates := loadedTemplates[template := templateData];
      return Success(loadedTemplates[template]);
    }
  }
}
