/**
 * The records every image provider shares and the two environment reads of the
 * provider base class. The process environment is an explicit map; a network
 * answer is an explicit record, already decoded.
 */
module Base {
  import opened Wrappers
  import Js

  /** The process environment: variable name to value. */
  type Env = map<string, string>

  /** What a caller asks a provider for; `aspectRatio` is carried but never read. */
  datatype ProviderInput = ProviderInput(
    prompt: string,
    model: Option<string>,
    aspectRatio: Option<string>,
    numImages: Option<int>)

  /**
   * One normalised image. Every field is optional: the type itself does not insist
   * on a `url` or a `b64Json` (see `OpenAI.NeitherFieldIsPossible`).
   */
  datatype ProviderOutput = ProviderOutput(
    url: Option<string>,
    b64Json: Option<string>,
    mimeType: Option<string>,
    revisedPrompt: Option<string>)

  /**
   * The answer to one HTTP request: the `ok` flag, the body as text (read when the
   * status is not ok) and the body as decoded JSON (read when it is).
   */
  datatype HttpResponse<B> = HttpResponse(ok: bool, text: string, json: B)

  /** `process.env[name]`. */
  function Read(env: Env, name: string): Option<string>
  {
    if name in env then Some(env[name]) else None
  }

  /**
   * `getModel`: the `CLAWRA_IMAGE_MODEL` variable when it is set to a non-empty
   * string, otherwise exactly the provider's default.
   */
  function GetModel(env: Env, defaultModel: string): (model: string)
    ensures "CLAWRA_IMAGE_MODEL" in env && env["CLAWRA_IMAGE_MODEL"] != "" ==>
              model == env["CLAWRA_IMAGE_MODEL"]
    ensures !("CLAWRA_IMAGE_MODEL" in env && env["CLAWRA_IMAGE_MODEL"] != "") ==>
              model == defaultModel
  {
    Js.Or(Read(env, "CLAWRA_IMAGE_MODEL"), defaultModel)
  }

  /**
   * `getApiKey`: the value of exactly the variable named, unchanged (even when it is
   * empty), and nothing when it is unset. No other source is consulted.
   */
  function GetApiKey(env: Env, envVar: string): (key: Option<string>)
    ensures key.Some? <==> envVar in env
    ensures key.Some? ==> key.value == env[envVar]
  {
    Read(env, envVar)
  }

  /** A key read depends on that one variable only. */
  lemma GetApiKeyIsLocal(env: Env, other: Env, envVar: string)
    requires Read(env, envVar) == Read(other, envVar)
    ensures GetApiKey(env, envVar) == GetApiKey(other, envVar)
  {
  }

  /** The model default depends on `CLAWRA_IMAGE_MODEL` only. */
  lemma GetModelIsLocal(env: Env, other: Env, defaultModel: string)
    requires Read(env, "CLAWRA_IMAGE_MODEL") == Read(other, "CLAWRA_IMAGE_MODEL")
    ensures GetModel(env, defaultModel) == GetModel(other, defaultModel)
  {
  }

  /** A selected output has something to show: a non-empty url or a non-empty payload. */
  predicate HasImage(o: ProviderOutput)
  {
    Js.Truthy(o.url) || Js.Truthy(o.b64Json)
  }
}
