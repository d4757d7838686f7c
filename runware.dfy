/**
 * The Runware provider: the credential check, the single `imageInference` task it
 * submits (canvas size read from the environment through `parseInt`), and the
 * normalisation of the task results it gets back.
 */
module Runware {
  import opened Wrappers
  import opened Base
  import Js

  /** One element of the response's `data` array. */
  datatype TaskResult = TaskResult(
    taskType: Option<string>,
    imageURL: Option<string>,
    imageBase64Data: Option<string>,
    imageDataURI: Option<string>)

  /**
   * The decoded response. `data` and `errors` are `None` when missing or not arrays;
   * an `errors` entry is represented by its `message` (`None` for an entry without
   * one, which reads the same as a null entry under `?.`).
   */
  datatype Body = Body(data: Option<seq<TaskResult>>, errors: Option<seq<Option<string>>>)

  /** The one task of the request body. */
  datatype Task = Task(
    taskType: string,
    taskUUID: string,
    positivePrompt: string,
    model: string,
    width: int,
    height: int,
    numberResults: int,
    outputType: string,
    outputFormat: string,
    deliveryMethod: string)

  const KeyVar := "RUNWARE_API_KEY"
  const DefaultModel := "runware:101@1"
  const DefaultSide := 1024

  /** `isConfigured`: the key variable is set to a non-empty string. */
  predicate IsConfigured(env: Env): (configured: bool)
    ensures configured <==> KeyVar in env && env[KeyVar] != ""
  {
    Js.Truthy(GetApiKey(env, KeyVar))
  }

  function ConfigRequirements(): (reqs: seq<string>)
    ensures KeyVar in reqs
    ensures forall env: Env {:trigger IsConfigured(env)} ::
              IsConfigured(env) <==> forall v :: v in reqs ==> v in env && env[v] != ""
  {
    [KeyVar]
  }

  /**
   * A canvas side from its environment variable: `parseInt(raw || "1024", 10)` when
   * that is finite and positive, else 1024. Always a positive integer.
   */
  function Dimension(raw: Option<string>): (side: int)
    ensures side > 0
  {
    var parsed := Js.ParseInt(Js.Or(raw, "1024"));
    if Js.IsFinite(parsed) && parsed.value > 0 then parsed.value else DefaultSide
  }

  /** An unset or empty variable gives 1024. */
  lemma DimensionDefault(raw: Option<string>)
    requires !Js.Truthy(raw)
    ensures Dimension(raw) == DefaultSide
  {
    assert Js.NatToString(1024) == "1024";
    Js.ParseIntDecimal(1024, []);
    assert Js.NatToString(1024) + [] == "1024";
  }

  /** A decimal rendering of a positive number, optionally followed by a non-digit suffix, is taken as is. */
  lemma DimensionDecimal(n: nat, rest: string)
    requires 0 < n < Js.OverflowMantissa
    requires rest == [] || !Js.IsDigit(rest[0])
    ensures Dimension(Some(Js.NatToString(n) + rest)) == n
  {
    Js.ParseIntDecimal(n, rest);
  }

  /** A negative decimal ("-5", "-5px"), and "-0", gives 1024. */
  lemma DimensionNegative(n: nat, rest: string)
    requires n < Js.OverflowMantissa
    requires rest == [] || !Js.IsDigit(rest[0])
    ensures Dimension(Some("-" + Js.NatToString(n) + rest)) == DefaultSide
  {
    Js.ParseIntNegative(n, rest);
  }

  /** An explicit plus sign is accepted ("+768" gives 768). */
  lemma DimensionPlus(n: nat, rest: string)
    requires 0 < n < Js.OverflowMantissa
    requires rest == [] || !Js.IsDigit(rest[0])
    ensures Dimension(Some("+" + (Js.NatToString(n) + rest))) == n
  {
    Js.ParseIntPlusDigits(Js.NatToString(n), rest);
    Js.NatToStringValue(n);
    Js.ToNumberFinite(n);
  }

  /** Text that does not start like a number ("abc") gives 1024. */
  lemma DimensionNotANumber(s: string)
    requires s != [] && !Js.IsStrWhiteSpaceChar(s[0]) && !Js.IsDigit(s[0])
    requires s[0] != '+' && s[0] != '-'
    ensures Dimension(Some(s)) == DefaultSide
  {
    Js.ParseIntNaN(s);
  }

  /**
   * The request body of `generate` for a given task identifier; none when the key
   * is missing, since that check comes first.
   */
  function Request(env: Env, input: ProviderInput, taskUuid: string): (body: Option<seq<Task>>)
    ensures body.Some? <==> IsConfigured(env)
    ensures body.Some? ==> |body.value| == 1
    ensures body.Some? ==>
              var task := body.value[0];
              && task.taskType == "imageInference" && task.taskUUID == taskUuid
              && task.positivePrompt == input.prompt
              && task.model == Js.Or(input.model, GetModel(env, DefaultModel))
              && task.width == Dimension(Read(env, "CLAWRA_IMAGE_WIDTH")) > 0
              && task.height == Dimension(Read(env, "CLAWRA_IMAGE_HEIGHT")) > 0
              && task.numberResults == Js.NumberOr(input.numImages, 1)
              && task.outputType == "URL" && task.outputFormat == "JPG"
              && task.deliveryMethod == "sync"
  {
    if !Js.Truthy(GetApiKey(env, KeyVar)) then None
    else
      var model := Js.Or(input.model, GetModel(env, DefaultModel));
      var width := Dimension(Read(env, "CLAWRA_IMAGE_WIDTH"));
      var height := Dimension(Read(env, "CLAWRA_IMAGE_HEIGHT"));
      var numberResults := Js.NumberOr(input.numImages, 1);
      Some([Task("imageInference", taskUuid, input.prompt, model, width, height,
                 numberResults, "URL", "JPG", "sync")])
  }

  /** The base64 payload of a data URI: `uri.split(",")[1]` when non-empty. */
  function DataUriPayload(uri: string): (payload: Option<string>)
    ensures payload.Some? ==> payload.value != "" && ',' !in payload.value
  {
    var part := Js.SplitPart(uri, ',', 1);
    if Js.Truthy(part) then part else None
  }

  /** The payload is what lies between the first comma and the next one (RFC 2397, section 3). */
  lemma DataUriPayloadAfterFirstComma(header: string, payload: string, tail: string)
    requires ',' !in header && ',' !in payload && payload != ""
    requires tail == [] || tail[0] == ','
    ensures DataUriPayload(header + "," + payload + tail) == Some(payload)
  {
    Js.SplitSecondPart(header, payload, tail, ',');
  }

  /** A URI without a comma has no payload. */
  lemma DataUriPayloadMissing(uri: string)
    requires ',' !in uri
    ensures DataUriPayload(uri) == None
  {
    Js.SplitSecondPartMissing(uri, ',');
  }

  /** A URI whose first comma is followed by nothing, or by another comma, has no payload. */
  lemma DataUriPayloadEmpty(header: string, tail: string)
    requires ',' !in header
    requires tail == [] || tail[0] == ','
    ensures DataUriPayload(header + "," + tail) == None
  {
    Js.SplitSecondPart(header, [], tail, ',');
    assert header + "," + tail == header + [','] + [] + tail;
  }

  /**
   * The `map` callback: a non-empty `imageURL` wins (url only); else a non-empty
   * `imageBase64Data` (as JPEG); else the payload of a non-empty `imageDataURI` (as
   * JPEG); else nothing.
   */
  function ItemOutput(item: TaskResult): (out: Option<ProviderOutput>)
    ensures Js.Truthy(item.imageURL) ==>
              out == Some(ProviderOutput(item.imageURL, None, None, None))
    ensures !Js.Truthy(item.imageURL) && Js.Truthy(item.imageBase64Data) ==>
              out == Some(ProviderOutput(None, item.imageBase64Data, Some("image/jpeg"), None))
    ensures !Js.Truthy(item.imageURL) && !Js.Truthy(item.imageBase64Data) ==>
              var payload := if Js.Truthy(item.imageDataURI) then DataUriPayload(item.imageDataURI.value) else None;
              out == if payload.Some? then Some(ProviderOutput(None, payload, Some("image/jpeg"), None)) else None
    ensures out.Some? ==> HasImage(out.value)
  {
    if Js.Truthy(item.imageURL) then Some(ProviderOutput(item.imageURL, None, None, None))
    else if Js.Truthy(item.imageBase64Data) then
      Some(ProviderOutput(None, item.imageBase64Data, Some("image/jpeg"), None))
    else if Js.Truthy(item.imageDataURI) then
      var base64 := DataUriPayload(item.imageDataURI.value);
      if base64.Some? then Some(ProviderOutput(None, base64, Some("image/jpeg"), None)) else None
    else None
  }

  /** What one result contributes: nothing unless it is an `imageInference` result. */
  function Contribution(item: TaskResult): seq<ProviderOutput>
  {
    if item.taskType == Some("imageInference") then
      var out := ItemOutput(item);
      if out.Some? then [out.value] else []
    else []
  }

  /** The output shapes a Runware result can take: url only, or a JPEG payload. */
  predicate IsRunwareShape(o: ProviderOutput)
  {
    || (Js.Truthy(o.url) && o == ProviderOutput(o.url, None, None, None))
    || (Js.Truthy(o.b64Json) && o == ProviderOutput(None, o.b64Json, Some("image/jpeg"), None))
  }

  /**
   * `data.filter(imageInference).map(ItemOutput).filter(non-null)`. Every stage works
   * element by element, so the chain is one pass over the results.
   */
  function Normalise(items: seq<TaskResult>): (outs: seq<ProviderOutput>)
    ensures |outs| <= |items|
    ensures forall i :: 0 <= i < |outs| ==> HasImage(outs[i]) && IsRunwareShape(outs[i])
  {
    if items == [] then [] else Contribution(items[0]) + Normalise(items[1..])
  }

  /** Normalising keeps the order of the results: it distributes over concatenation. */
  lemma {:induction false} NormaliseAppend(a: seq<TaskResult>, b: seq<TaskResult>)
    ensures Normalise(a + b) == Normalise(a) + Normalise(b)
  {
    if a == [] {
      assert a + b == b;
    } else {
      assert (a + b)[1..] == a[1..] + b;
      NormaliseAppend(a[1..], b);
    }
  }

  /** One result gives its output when it is an `imageInference` result with an image, else nothing. */
  lemma NormaliseSingle(x: TaskResult)
    ensures Normalise([x]) ==
              if x.taskType == Some("imageInference") && ItemOutput(x).Some? then [ItemOutput(x).value] else []
  {
    assert [x][1..] == [];
  }

  /** Every `imageInference` result with an image is kept, at its place among the outputs of the others. */
  lemma NormaliseKeeps(items: seq<TaskResult>, i: nat)
    requires i < |items|
    requires items[i].taskType == Some("imageInference") && ItemOutput(items[i]).Some?
    ensures Normalise(items) ==
              Normalise(items[..i]) + [ItemOutput(items[i]).value] + Normalise(items[i + 1..])
    ensures ItemOutput(items[i]).value in Normalise(items)
  {
    assert items == items[..i] + [items[i]] + items[i + 1..];
    NormaliseAppend(items[..i] + [items[i]], items[i + 1..]);
    NormaliseAppend(items[..i], [items[i]]);
    NormaliseSingle(items[i]);
  }

  /** Results of any other task type contribute nothing. */
  lemma {:induction false} NormaliseDropsOtherTasks(items: seq<TaskResult>)
    requires forall i :: 0 <= i < |items| ==> items[i].taskType != Some("imageInference")
    ensures Normalise(items) == []
  {
    if items != [] {
      NormaliseDropsOtherTasks(items[1..]);
    }
  }

  /** Every output comes from an `imageInference` result of the input. */
  lemma {:induction false} NormaliseSources(items: seq<TaskResult>, j: nat)
    requires j < |Normalise(items)|
    ensures exists i :: 0 <= i < |items| && items[i].taskType == Some("imageInference") &&
                        ItemOutput(items[i]) == Some(Normalise(items)[j])
  {
    var head := Contribution(items[0]);
    if j < |head| {
      assert items[0].taskType == Some("imageInference");
      assert ItemOutput(items[0]) == Some(Normalise(items)[j]);
    } else {
      NormaliseSources(items[1..], j - |head|);
      var i :| 0 <= i < |items[1..]| && items[1..][i].taskType == Some("imageInference") &&
               ItemOutput(items[1..][i]) == Some(Normalise(items[1..])[j - |head|]);
      assert items[i + 1] == items[1..][i];
    }
  }

  /**
   * What `generate` returns or throws, given what the endpoint answered. In order: a
   * missing key; a non-ok status with the body text; a non-empty `errors` list (its
   * first message, or "unknown error"), whatever `data` holds; a missing or empty
   * `data` list; no usable result after normalising.
   */
  function Outcome(env: Env, response: HttpResponse<Body>): (r: Result<seq<ProviderOutput>, string>)
    ensures !IsConfigured(env) ==> r == Err("RUNWARE_API_KEY not configured")
    ensures IsConfigured(env) && !response.ok ==> r == Err("Runware API error: " + response.text)
    ensures IsConfigured(env) && response.ok && HasErrors(response.json) ==>
              r == Err("Runware API error: " + Js.Or(response.json.errors.value[0], "unknown error"))
    ensures IsConfigured(env) && response.ok && !HasErrors(response.json) &&
            (response.json.data.None? || response.json.data.value == []) ==>
              r == Err("Runware API error: empty image response")
    ensures r.Ok? ==> IsConfigured(env) && response.ok && !HasErrors(response.json)
    ensures r.Ok? ==> response.json.data.Some? && r.value == Normalise(response.json.data.value)
    ensures r.Ok? ==> 1 <= |r.value| <= |response.json.data.value|
    ensures IsConfigured(env) && response.ok && !HasErrors(response.json) &&
            response.json.data.Some? && response.json.data.value != [] ==>
              (r.Err? <==> Normalise(response.json.data.value) == []) &&
              (r.Err? ==> r.error == "Runware API error: image data missing in response")
  {
    if !IsConfigured(env) then Err("RUNWARE_API_KEY not configured")
    else if !response.ok then Err("Runware API error: " + response.text)
    else if HasErrors(response.json) then
      Err("Runware API error: " + Js.Or(response.json.errors.value[0], "unknown error"))
    else if response.json.data.None? || response.json.data.value == [] then
      Err("Runware API error: empty image response")
    else
      var outputs := Normalise(response.json.data.value);
      if outputs == [] then Err("Runware API error: image data missing in response")
      else Ok(outputs)
  }

  /** `Array.isArray(data.errors) && data.errors.length > 0`. */
  predicate HasErrors(body: Body): (has: bool)
    ensures has <==> body.errors.Some? && |body.errors.value| > 0
  {
    body.errors.Some? && body.errors.value != []
  }
}
