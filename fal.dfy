/**
 * The Fal provider: the credential check, a request body that carries the prompt
 * only, and the extraction of a single image URL from its response.
 */
module Fal {
  import opened Wrappers
  import opened Base
  import Js

  /**
   * The decoded response: the `url` of each element of `images` (`None` for an
   * element without one), and the top-level `url`.
   */
  datatype Body = Body(images: Option<seq<Option<string>>>, url: Option<string>)

  /** The request body: the prompt and nothing else. */
  datatype Request = Request(prompt: string)

  const KeyVar := "FAL_KEY"

  /** `isConfigured`: the key variable is set to a non-empty string. */
  predicate IsConfigured(env: Env): (configured: bool)
    ensures configured <==> KeyVar in env && env[KeyVar] != ""
  {
    Js.Truthy(GetApiKey(env, KeyVar))
  }

  function ConfigRequirements(): (reqs: seq<string>)
    ensures KeyVar in reqs
    ensures forall env: Env {:trigger IsConfigured(env)} ::
              IsConfigured(env) <==> forall v :: v in reqs ==> v in env && env[v] != ""
  {
    [KeyVar]
  }

  /** The request body of `generate`; none when the key is missing, since that check comes first. */
  function RequestBody(env: Env, input: ProviderInput): (body: Option<Request>)
    ensures body.Some? <==> IsConfigured(env)
    ensures body.Some? ==> body.value.prompt == input.prompt
  {
    if Js.Truthy(GetApiKey(env, KeyVar)) then Some(Request(input.prompt)) else None
  }

  /** `data.images?.[0]?.url || data.url`. */
  function ImageUrl(body: Body): (url: Option<string>)
    ensures var first := if body.images.Some? && body.images.value != [] then body.images.value[0] else None;
            && (Js.Truthy(url) <==> Js.Truthy(first) || Js.Truthy(body.url))
            && (Js.Truthy(first) ==> url == first)
            && (!Js.Truthy(first) ==> url == body.url)
  {
    var first := if body.images.Some? && body.images.value != [] then body.images.value[0] else None;
    if Js.Truthy(first) then first else body.url
  }

  /**
   * What `generate` returns or throws, given what the endpoint answered: a missing
   * key, a non-ok status with the body text, or no non-empty URL at either place;
   * otherwise exactly one output holding only that URL, `images[0].url` first.
   */
  function Outcome(env: Env, response: HttpResponse<Body>): (r: Result<seq<ProviderOutput>, string>)
    ensures !IsConfigured(env) ==> r == Err("FAL_KEY not configured")
    ensures IsConfigured(env) && !response.ok ==> r == Err("Fal.ai API error: " + response.text)
    ensures r.Ok? ==> IsConfigured(env) && response.ok
    ensures r.Ok? ==> |r.value| == 1 && r.value[0].url.Some? && r.value[0].url.value != ""
    ensures r.Ok? ==> r.value[0] == ProviderOutput(r.value[0].url, None, None, None)
    ensures IsConfigured(env) && response.ok ==>
              var body := response.json;
              var first := if body.images.Some? && body.images.value != [] then body.images.value[0] else None;
              && (Js.Truthy(first) ==> r == Ok([ProviderOutput(first, None, None, None)]))
              && (!Js.Truthy(first) && Js.Truthy(body.url) ==> r == Ok([ProviderOutput(body.url, None, None, None)]))
              && (!Js.Truthy(first) && !Js.Truthy(body.url) ==> r == Err("Fal.ai API error: empty image url"))
  {
    if !Js.Truthy(GetApiKey(env, KeyVar)) then Err("FAL_KEY not configured")
    else if !response.ok then Err("Fal.ai API error: " + response.text)
    else
      var url := ImageUrl(response.json);
      if !Js.Truthy(url) then Err("Fal.ai API error: empty image url")
      else Ok([ProviderOutput(url, None, None, None)])
  }

  /** The request ignores the model, the image count and the aspect ratio. */
  lemma RequestIgnoresOptions(env: Env, input: ProviderInput, other: ProviderInput)
    requires input.prompt == other.prompt
    ensures RequestBody(env, input) == RequestBody(env, other)
  {
  }
}
