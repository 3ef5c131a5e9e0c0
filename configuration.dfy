/**
 * `Config`: per-component settings with defaults, and the environment
 * variables that switch on tracing.
 */
module Configuration {
  import opened Base
  import opened DataModels

  /** The model used for each role. */
  const DefaultModels: map<string, string> := map[
    "router" := "gpt-4o-mini",
    "generator" := "gpt-4o-mini",
    "grader" := "gpt-4o-mini",
    "rewriter" := "gpt-4o-mini"]

  const DefaultVectorstoreSettings: map<string, Value> := map[
    "collection_name" := Str("adaptive-rag-collection"),
    "chunk_size" := Int(500),
    "chunk_overlap" := Int(0)]

  const DefaultWebSearchSettings: map<string, Value> := map["num_results" := Int(3)]

  const DefaultDocumentUrls: seq<string> := [
    "https://lilianweng.github.io/posts/2023-06-23-agent/",
    "https://lilianweng.github.io/posts/2023-03-15-prompt-engineering/",
    "https://lilianweng.github.io/posts/2023-10-25-adv-attack-llm/"]

  /** The four model roles all default to the same model. */
  lemma DefaultModelRoles()
    ensures DefaultModels.Keys == {"router", "generator", "grader", "rewriter"}
    ensures forall role :: role in DefaultModels ==> DefaultModels[role] == "gpt-4o-mini"
  {
  }

  /** `x or default` for an optional dictionary: an absent or empty one gives way to the default. */
  function MapOr<K, V>(x: Option<map<K, V>>, default: map<K, V>): (r: map<K, V>)
    ensures x.Some? && |x.value| > 0 ==> r == x.value
    ensures x.None? || |x.value| == 0 ==> r == default
  {
    if x.Some? && |x.value| > 0 then x.value else default
  }

  /** `x or default` for an optional list. */
  function SeqOr<T>(x: Option<seq<T>>, default: seq<T>): (r: seq<T>)
    ensures x.Some? && |x.value| > 0 ==> r == x.value
    ensures x.None? || |x.value| == 0 ==> r == default
  {
    if x.Some? && |x.value| > 0 then x.value else default
  }

  /** An explicitly empty argument is treated like a missing one. */
  lemma EmptyIsMissing<K, V, T>(mdefault: map<K, V>, sdefault: seq<T>)
    ensures MapOr(Some(map[]), mdefault) == MapOr(None, mdefault) == mdefault
    ensures SeqOr(Some([]), sdefault) == SeqOr(None, sdefault) == sdefault
  {
  }

  const TracingKey := "LANGSMITH_TRACING"
  const ProjectKey := "LANGSMITH_PROJECT"
  const DefaultProject := "Adaptive_RAG"

  /**
   * The environment after the tracing set-up: untouched when tracing is off;
   * otherwise tracing is switched on, and the project is named unless it
   * already has a non-empty name. No other variable changes.
   */
  function TracingEnv(vars: map<string, string>, enable: bool): (r: map<string, string>)
    ensures !enable ==> r == vars
    ensures enable ==> TracingKey in r && r[TracingKey] == "true"
    ensures enable ==> (ProjectKey in r &&
      r[ProjectKey] == (if ProjectKey in vars && vars[ProjectKey] != "" then vars[ProjectKey] else DefaultProject))
    ensures r.Keys == vars.Keys + (if enable then {TracingKey, ProjectKey} else {})
    ensures forall v :: v in vars && v != TracingKey && v != ProjectKey ==> r[v] == vars[v]
  {
    if !enable then vars
    else
      var traced := vars[TracingKey := "true"];
      if ProjectKey in traced && traced[ProjectKey] != "" then traced
      else traced[ProjectKey := DefaultProject]
  }

  /** Setting tracing up twice is setting it up once. */
  lemma TracingIdempotent(vars: map<string, string>, enable: bool)
    ensures TracingEnv(TracingEnv(vars, enable), enable) == TracingEnv(vars, enable)
  {
  }

  /** The process environment. */
  class Environment {
    var vars: map<string, string>

    constructor (vars: map<string, string>)
      ensures this.vars == vars
    {
      this.vars := vars;
    }
  }

  /** The tracing block of `Config.__init__`, writing the environment in place. */
  method SetUpTracing(env: Environment, enable: bool)
    modifies env
    ensures env.vars == TracingEnv(old(env.vars), enable)
  {
    if enable {
      env.vars := env.vars[TracingKey := "true"];
      if !(ProjectKey in env.vars && env.vars[ProjectKey] != "") {
        env.vars := env.vars[ProjectKey := DefaultProject];
      }
    }
  }

  class Config {
    var models: map<string, string>
    var vectorstoreSettings: map<string, Value>
    var webSearchSettings: map<string, Value>
    var documentUrls: seq<string>
    var enableTracing: bool

    /** `Config.__init__`: each setting or its default, then the tracing variables. */
    constructor (models: Option<map<string, string>>,
                 vectorstoreSettings: Option<map<string, Value>>,
                 webSearchSettings: Option<map<string, Value>>,
                 documentUrls: Option<seq<string>>,
                 enableTracing: bool,
                 env: Environment)
      modifies env
      ensures this.models == MapOr(models, DefaultModels)
      ensures this.vectorstoreSettings == MapOr(vectorstoreSettings, DefaultVectorstoreSettings)
      ensures this.webSearchSettings == MapOr(webSearchSettings, DefaultWebSearchSettings)
      ensures this.documentUrls == SeqOr(documentUrls, DefaultDocumentUrls)
      ensures this.enableTracing == enableTracing
      ensures env.vars == TracingEnv(old(env.vars), enableTracing)
    {
      this.models := MapOr(models, DefaultModels);
      this.vectorstoreSettings := MapOr(vectorstoreSettings, DefaultVectorstoreSettings);
      this.webSearchSettings := MapOr(webSearchSettings, DefaultWebSearchSettings);
      this.documentUrls := SeqOr(documentUrls, DefaultDocumentUrls);
      this.enableTracing := enableTracing;
      SetUpTracing(env, enableTracing);
    }
  }
}
