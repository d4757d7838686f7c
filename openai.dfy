/**
 * The OpenAI-style provider: the credential check, the request body (which gains a
 * `response_format` entry for `dall-e-2` only) and the mapping of the response's
 * `data` items to provider outputs.
 */
module OpenAI {
  import opened Wrappers
  import opened Base
  import Js

  /** A property of an untyped JSON object, as `typeof` sees it. */
  datatype Field = Absent | Str(s: string) | NonString

  /** One element of the response's `data` array. */
  datatype Item = Item(url: Field, b64Json: Field, mimeType: Field, revisedPrompt: Field)

  /** The decoded response; `data` is `None` when it is missing or not an array. */
  datatype Body = Body(data: Option<seq<Item>>)

  /** A value of the JSON request body. */
  datatype RequestValue = JString(str: string) | JNumber(num: int)

  const KeyVar := "OPENAI_API_KEY"
  const DefaultModel := "gpt-image-1"

  /** `isConfigured`: the key variable is set to a non-empty string. */
  predicate IsConfigured(env: Env): (configured: bool)
    ensures configured <==> KeyVar in env && env[KeyVar] != ""
  {
    Js.Truthy(GetApiKey(env, KeyVar))
  }

  function ConfigRequirements(): (reqs: seq<string>)
    ensures KeyVar in reqs
    ensures forall env: Env {:trigger IsConfigured(env)} ::
              IsConfigured(env) <==> forall v :: v in reqs ==> v in env && env[v] != ""
  {
    [KeyVar]
  }

  /**
   * The model the request names: the caller's model when non-empty, else
   * `CLAWRA_IMAGE_MODEL` when non-empty, else `gpt-image-1`.
   */
  function EffectiveModel(env: Env, input: ProviderInput): (model: string)
    ensures Js.Truthy(input.model) ==> model == input.model.value
    ensures !Js.Truthy(input.model) && Js.Truthy(Read(env, "CLAWRA_IMAGE_MODEL")) ==>
              model == env["CLAWRA_IMAGE_MODEL"]
    ensures !Js.Truthy(input.model) && !Js.Truthy(Read(env, "CLAWRA_IMAGE_MODEL")) ==>
              model == DefaultModel
    ensures model != ""
  {
    Js.Or(input.model, Js.Or(Some(GetModel(env, DefaultModel)), DefaultModel))
  }

  /** The keys of the request body: `response_format` joins them for `dall-e-2` only. */
  function RequestKeys(model: string): set<string>
  {
    if model == "dall-e-2" then {"model", "prompt", "n", "response_format"}
    else {"model", "prompt", "n"}
  }

  /** What a request body for `input` holds. */
  predicate IsRequestBody(body: map<string, RequestValue>, env: Env, input: ProviderInput)
  {
    var model := EffectiveModel(env, input);
    && body.Keys == RequestKeys(model)
    && body["model"] == JString(model)
    && body["prompt"] == JString(input.prompt)
    && body["n"] == JNumber(Js.NumberOr(input.numImages, 1))
    && ("response_format" in body ==> body["response_format"] == JString("url"))
  }

  /**
   * Builds the request body the way the source does: a record of `model`, `prompt`
   * and `n` (`num_images`, or 1 when it is missing or 0) that gains
   * `response_format = "url"` only when the effective model is exactly `dall-e-2`.
   */
  method BuildRequestBody(env: Env, input: ProviderInput) returns (body: map<string, RequestValue>)
    ensures IsRequestBody(body, env, input)
    ensures ("response_format" in body) <==> EffectiveModel(env, input) == "dall-e-2"
  {
    var effectiveModel := EffectiveModel(env, input);
    body := map[
      "model" := JString(effectiveModel),
      "prompt" := JString(input.prompt),
      "n" := JNumber(Js.NumberOr(input.numImages, 1))];
    if effectiveModel == "dall-e-2" {
      body := body["response_format" := JString("url")];
    }
  }

  /** `typeof f === "string" ? f : undefined`. */
  function AsString(f: Field): Option<string>
  {
    if f.Str? then Some(f.s) else None
  }

  /**
   * One response item as a provider output: `url`, `b64_json` and `revised_prompt`
   * pass through when they are strings; `mime_type` defaults to `image/png`.
   */
  function MapItem(item: Item): (out: ProviderOutput)
    ensures out.url.Some? <==> item.url.Str?
    ensures out.b64Json.Some? <==> item.b64Json.Str?
    ensures out.revisedPrompt.Some? <==> item.revisedPrompt.Str?
    ensures item.url.Str? ==> out.url.value == item.url.s
    ensures item.b64Json.Str? ==> out.b64Json.value == item.b64Json.s
    ensures item.revisedPrompt.Str? ==> out.revisedPrompt.value == item.revisedPrompt.s
    ensures out.mimeType == Some(if item.mimeType.Str? then item.mimeType.s else "image/png")
  {
    ProviderOutput(
      AsString(item.url),
      AsString(item.b64Json),
      Some(if item.mimeType.Str? then item.mimeType.s else "image/png"),
      AsString(item.revisedPrompt))
  }

  /** `data.map(...)`: one output per item, in order. */
  function MapItems(items: seq<Item>): (outs: seq<ProviderOutput>)
    ensures |outs| == |items|
    ensures forall i :: 0 <= i < |items| ==> outs[i] == MapItem(items[i])
  {
    if items == [] then [] else [MapItem(items[0])] + MapItems(items[1..])
  }

  /**
   * What `generate` returns or throws, given what the endpoint answered: a missing
   * key fails first, then a non-ok status with the body text, then a missing or
   * empty `data` list; otherwise every item is mapped, in order.
   */
  function Outcome(env: Env, response: HttpResponse<Body>): (r: Result<seq<ProviderOutput>, string>)
    ensures !IsConfigured(env) ==> r == Err("OPENAI_API_KEY not configured")
    ensures IsConfigured(env) && !response.ok ==> r == Err("OpenAI API error: " + response.text)
    ensures IsConfigured(env) && response.ok ==>
              (r.Err? <==> response.json.data.None? || response.json.data.value == [])
    ensures IsConfigured(env) && response.ok && r.Err? ==>
              r.error == "OpenAI API error: empty image response"
    ensures r.Ok? ==> IsConfigured(env) && response.ok && response.json.data.Some?
    ensures r.Ok? ==> |r.value| == |response.json.data.value| > 0
    ensures r.Ok? ==> forall i :: 0 <= i < |r.value| ==>
              r.value[i] == MapItem(response.json.data.value[i])
  {
    if !IsConfigured(env) then Err("OPENAI_API_KEY not configured")
    else if !response.ok then Err("OpenAI API error: " + response.text)
    else if response.json.data.None? || response.json.data.value == [] then
      Err("OpenAI API error: empty image response")
    else Ok(MapItems(response.json.data.value))
  }

  /**
   * `generate`: the request body it would send (none when the key is missing, since
   * that check comes before the body is built) and what it returns or throws.
   */
  method Generate(env: Env, input: ProviderInput, response: HttpResponse<Body>)
    returns (request: Option<map<string, RequestValue>>, result: Result<seq<ProviderOutput>, string>)
    ensures request.Some? <==> IsConfigured(env)
    ensures request.Some? ==> IsRequestBody(request.value, env, input)
    ensures result == Outcome(env, response)
  {
    var apiKey := GetApiKey(env, KeyVar);
    if !Js.Truthy(apiKey) {
      return None, Err("OPENAI_API_KEY not configured");
    }
    var body := BuildRequestBody(env, input);
    request := Some(body);
    if !response.ok {
      return request, Err("OpenAI API error: " + response.text);
    }
    var data := response.json.data;
    if data.None? || data.value == [] {
      return request, Err("OpenAI API error: empty image response");
    }
    result := Ok(MapItems(data.value));
  }

  /** `dall-e-2` asks for URLs; `gpt-image-1` and every other model add no format flag. */
  lemma ResponseFormatOnlyForDallE2(env: Env, input: ProviderInput, body: map<string, RequestValue>)
    requires IsRequestBody(body, env, input)
    ensures "response_format" in body <==> EffectiveModel(env, input) == "dall-e-2"
    ensures EffectiveModel(env, input) == DefaultModel ==> body.Keys == {"model", "prompt", "n"}
  {
  }

  /** Asking for no images or for 0 images sends `n = 1`. */
  lemma ZeroImagesSendsOne(env: Env, input: ProviderInput, body: map<string, RequestValue>)
    requires IsRequestBody(body, env, input)
    requires input.numImages.None? || input.numImages == Some(0)
    ensures body["n"] == JNumber(1)
  {
  }

  /**
   * The output type does not enforce "url or b64_json": an item with neither comes
   * back as an output with neither, typed `image/png`.
   */
  lemma NeitherFieldIsPossible(env: Env, text: string)
    requires IsConfigured(env)
    ensures var item := Item(Absent, NonString, Absent, Absent);
            Outcome(env, HttpResponse(true, text, Body(Some([item])))) ==
              Ok([ProviderOutput(None, None, Some("image/png"), None)])
  {
    var item := Item(Absent, NonString, Absent, Absent);
    assert MapItems([item]) == [MapItem(item)];
  }
}
