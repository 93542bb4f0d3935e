/**
 * `prompt_config`: the configuration record built from the user's answers.
 * Each prompt offers a default taken from the configuration it is seeded
 * with, falling back to the deployer's own defaults; the user either keeps
 * that default or leaves other text in the prompt.
 */
module Prompting {
  import opened PyText
  import opened Values
  import opened Completeness

  const DefaultBaseUrl := "https://api.z.ai/v1"
  const DefaultModel := "glm-4-flash"
  /** The value of the "(custom)" choice of the model menu. */
  const CustomChoice := "custom"
  /** The values of the model menu's named choices. */
  const MenuModels: set<string> := {"glm-4-flash", "glm-4", "glm-4-plus"}
  /** The `container` section of the deployer's defaults. */
  const DefaultContainer: Table := map["image_name" := Str("localhost/jupyter-lab:latest"), "port" := Int(8888)]

  /** The default notebooks directory, `~/Documents/jupyter`. */
  function DefaultNotebooksDir(home: string): string
  {
    home + "/Documents/jupyter"
  }

  /** What the user leaves in a prompt: the offered default, or text of their own. */
  datatype Answer = Accept | Typed(text: string)

  /**
   * The answers to the prompts, in the order they are asked: API key,
   * base URL, model menu, the custom model name (asked only when the menu
   * answer is "custom"), notebooks directory.
   */
  datatype Answers = Answers(apiKey: Answer, baseUrl: Answer, model: Answer, customModel: string, notebooksDir: Answer)

  function Resolve(a: Answer, default: string): string
  {
    match a
    case Accept => default
    case Typed(t) => t
  }

  /** The default a prompt offers: `existing.get(section, {}).get(key, fallback)`. */
  function Offered(existing: Config, section: string, key: string, fallback: string): string
  {
    match Lookup(existing, section, key)
    case Some(v) => Render(v)
    case None => fallback
  }

  function KeyAnswer(existing: Config, ans: Answers): string
  {
    Resolve(ans.apiKey, Offered(existing, "ai", "api_key", ""))
  }

  /** The base URL answer before it is stripped. */
  function BaseUrlAnswer(existing: Config, ans: Answers): string
  {
    Resolve(ans.baseUrl, Offered(existing, "ai", "base_url", DefaultBaseUrl))
  }

  /** The model: the menu answer, or the custom name when the menu answer is "custom". */
  function ModelAnswer(existing: Config, ans: Answers): string
  {
    var picked := Resolve(ans.model, Offered(existing, "ai", "model", DefaultModel));
    if picked == CustomChoice then ans.customModel else picked
  }

  function NotebooksAnswer(existing: Config, ans: Answers, home: string): string
  {
    Resolve(ans.notebooksDir, Offered(existing, "paths", "notebooks_dir", DefaultNotebooksDir(home)))
  }

  /** The record `prompt_config` returns, from its parts. */
  function Assemble(apiKey: string, baseUrl: string, model: string, notebooksDir: string, container: Table): (c: Config)
    ensures c.Keys == {"ai", "paths", "container"}
    ensures c["ai"].Keys == {"api_key", "base_url", "model"} && c["paths"].Keys == {"notebooks_dir"}
    ensures Lookup(c, "ai", "api_key") == Some(Str(apiKey))
    ensures Lookup(c, "ai", "base_url") == Some(Str(baseUrl))
    ensures Lookup(c, "ai", "model") == Some(Str(model))
    ensures Lookup(c, "paths", "notebooks_dir") == Some(Str(notebooksDir))
    ensures c["container"] == container
  {
    assert "ai" != "paths" && "ai" != "container" && "paths" != "container";
    assert "api_key" != "base_url" && "api_key" != "model" && "base_url" != "model";
    map[
      "ai" := map["api_key" := Str(apiKey), "base_url" := Str(baseUrl), "model" := Str(model)],
      "paths" := map["notebooks_dir" := Str(notebooksDir)],
      "container" := container]
  }

  /**
   * `prompt_config(existing)`: None when the API key answer is empty (the
   * deployer exits with status 1 before asking anything else); otherwise
   * the new configuration, whose `ai` and `paths` sections come from the
   * answers and whose `container` section is carried over from `existing`,
   * or taken from the defaults when `existing` has none.
   */
  function PromptConfig(existing: Config, ans: Answers, home: string): (r: Option<Config>)
    ensures r.None? <==> KeyAnswer(existing, ans) == ""
    ensures r.Some? ==> r.value.Keys == {"ai", "paths", "container"}
    ensures r.Some? ==> r.value["ai"].Keys == {"api_key", "base_url", "model"} && r.value["paths"].Keys == {"notebooks_dir"}
    ensures r.Some? ==> Lookup(r.value, "ai", "api_key") == Some(Str(KeyAnswer(existing, ans)))
    ensures r.Some? ==> Lookup(r.value, "ai", "base_url") == Some(Str(Strip(BaseUrlAnswer(existing, ans))))
    ensures r.Some? ==> Lookup(r.value, "ai", "model") == Some(Str(ModelAnswer(existing, ans)))
    ensures r.Some? ==> Lookup(r.value, "paths", "notebooks_dir") == Some(Str(NotebooksAnswer(existing, ans, home)))
    ensures r.Some? ==> r.value["container"] == if "container" in existing then existing["container"] else DefaultContainer
  {
    var apiKey := KeyAnswer(existing, ans);
    if apiKey == "" then None
    else
      Some(Assemble(apiKey, Strip(BaseUrlAnswer(existing, ans)), ModelAnswer(existing, ans),
                    NotebooksAnswer(existing, ans, home),
                    if "container" in existing then existing["container"] else DefaultContainer))
  }

  /**
   * A prompted configuration is complete exactly when the stripped base URL
   * and the notebooks directory are non-empty: the API key cannot be empty.
   */
  lemma PromptedCompleteIff(existing: Config, ans: Answers, home: string)
    requires PromptConfig(existing, ans, home).Some?
    ensures Complete(PromptConfig(existing, ans, home).value) <==>
              Strip(BaseUrlAnswer(existing, ans)) != "" && NotebooksAnswer(existing, ans, home) != ""
  {
    CompleteIff(PromptConfig(existing, ans, home).value);
  }

  /** None of the menu's named choices is the "(custom)" choice. */
  lemma MenuModelIsNotCustom(m: string)
    requires m in MenuModels
    ensures m != CustomChoice
  {
    assert |m| != |CustomChoice|;
  }

  predicate AcceptsDefaults(ans: Answers)
  {
    ans.apiKey == Accept && ans.baseUrl == Accept && ans.model == Accept && ans.notebooksDir == Accept
  }

  /**
   * Prompting again, seeded with a prompted configuration and keeping every
   * offered default, gives that configuration back. The model must be one
   * of the menu's named choices: the menu refuses a stored custom name as
   * its default, and "custom" itself re-opens the custom-name prompt.
   */
  lemma RepromptKeepsConfig(existing: Config, ans: Answers, home: string)
    requires AcceptsDefaults(ans)
    requires PromptConfig(existing, ans, home).Some?
    requires ModelAnswer(existing, ans) in MenuModels
    ensures PromptConfig(PromptConfig(existing, ans, home).value, ans, home) == PromptConfig(existing, ans, home)
  {
    var c := PromptConfig(existing, ans, home).value;
    var url := Strip(BaseUrlAnswer(existing, ans));
    var model := ModelAnswer(existing, ans);
    StripIdempotent(BaseUrlAnswer(existing, ans));
    assert KeyAnswer(c, ans) == KeyAnswer(existing, ans);
    assert Offered(c, "ai", "base_url", DefaultBaseUrl) == url;
    assert Strip(BaseUrlAnswer(c, ans)) == url;
    assert Offered(c, "ai", "model", DefaultModel) == model;
    MenuModelIsNotCustom(model);
    assert ModelAnswer(c, ans) == model;
    assert NotebooksAnswer(c, ans, home) == NotebooksAnswer(existing, ans, home);
    assert "container" in c;
  }

  /**
   * Seeded with an empty configuration (what the deployer does when the
   * stored configuration is incomplete and --reconfigure is not given), the
   * key must be typed anew, the container section is the default one, and
   * every accepted default is the deployer's own.
   */
  lemma EmptySeedStartsOver(ans: Answers, home: string)
    ensures PromptConfig(map[], ans, home).Some? ==> ans.apiKey.Typed?
    ensures PromptConfig(map[], ans, home).Some? ==> PromptConfig(map[], ans, home).value["container"] == DefaultContainer
    ensures ans.baseUrl == Accept ==> BaseUrlAnswer(map[], ans) == DefaultBaseUrl
    ensures ans.model == Accept ==> ModelAnswer(map[], ans) == DefaultModel
    ensures ans.notebooksDir == Accept ==> NotebooksAnswer(map[], ans, home) == DefaultNotebooksDir(home)
  {
  }
}
