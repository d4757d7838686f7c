/**
 * The provider factory: an explicit `CLAWRA_IMAGE_PROVIDER` override picks by name,
 * otherwise the first configured of OpenAI and Fal, otherwise OpenAI. Runware is a
 * provider of its own but the factory never returns it.
 */
module Providers {
  import opened Wrappers
  import opened Base
  import Js
  import OpenAI
  import Runware
  import Fal

  /** The three provider implementations, each stateless. */
  datatype Provider = OpenAIProvider | RunwareProvider | FalProvider {

    /** The provider's `name` field. */
    function Name(): (name: string)
      ensures name != ""
      ensures name == "openai" || name == "runware" || name == "fal"
    {
      match this
      case OpenAIProvider => "openai"
      case RunwareProvider => "runware"
      case FalProvider => "fal"
    }

    /** `provider.isConfigured()`: every requirement is set to a non-empty value. */
    predicate IsConfigured(env: Env): (configured: bool)
      ensures configured <==> forall v :: v in ConfigRequirements() ==> v in env && env[v] != ""
    {
      match this
      case OpenAIProvider => OpenAI.IsConfigured(env)
      case RunwareProvider => Runware.IsConfigured(env)
      case FalProvider => Fal.IsConfigured(env)
    }

    /** `provider.getConfigRequirements()`: the one key variable of each provider. */
    function ConfigRequirements(): (reqs: seq<string>)
      ensures |reqs| == 1 && reqs[0] != ""
    {
      match this
      case OpenAIProvider => OpenAI.ConfigRequirements()
      case RunwareProvider => Runware.ConfigRequirements()
      case FalProvider => Fal.ConfigRequirements()
    }

    /** What `generate` returns or throws, given what each endpoint would answer. */
    function Outcome(env: Env, network: Network): (outcome: Result<seq<ProviderOutput>, string>)
      ensures !IsConfigured(env) ==> outcome.Err?
      ensures outcome.Ok? ==> outcome.value != []
    {
      match this
      case OpenAIProvider => OpenAI.Outcome(env, network.openai)
      case RunwareProvider => Runware.Outcome(env, network.runware)
      case FalProvider => Fal.Outcome(env, network.fal)
    }
  }

  /** The answer each endpoint would give; only the chosen provider's is read. */
  datatype Network = Network(
    openai: HttpResponse<OpenAI.Body>,
    runware: HttpResponse<Runware.Body>,
    fal: HttpResponse<Fal.Body>)

  const OverrideVar := "CLAWRA_IMAGE_PROVIDER"

  /**
   * `getProvider`. A non-empty override selects by name whatever is configured
   * (`openai` or `fal`; anything else, `runware` included, throws and nothing falls
   * back). Without one: OpenAI if configured, else Fal if configured, else OpenAI.
   */
  function GetProvider(env: Env): (r: Result<Provider, string>)
    ensures Js.Truthy(Read(env, OverrideVar)) ==>
              var name := env[OverrideVar];
              && (name == "openai" ==> r == Ok(OpenAIProvider))
              && (name == "fal" ==> r == Ok(FalProvider))
              && (name != "openai" && name != "fal" ==> r == Err("Unknown provider: " + name))
    ensures !Js.Truthy(Read(env, OverrideVar)) ==> r.Ok?
    ensures !Js.Truthy(Read(env, OverrideVar)) && OpenAI.IsConfigured(env) ==> r == Ok(OpenAIProvider)
    ensures !Js.Truthy(Read(env, OverrideVar)) && !OpenAI.IsConfigured(env) && Fal.IsConfigured(env) ==>
              r == Ok(FalProvider)
    ensures !Js.Truthy(Read(env, OverrideVar)) && !OpenAI.IsConfigured(env) && !Fal.IsConfigured(env) ==>
              r == Ok(OpenAIProvider)
    ensures r.Ok? ==> r.value.Name() in {"openai", "fal"}
    ensures r.Err? ==> Js.Truthy(Read(env, OverrideVar))
  {
    var providerType := Read(env, OverrideVar);
    if Js.Truthy(providerType) then
      match providerType.value
      case "openai" => Ok(OpenAIProvider)
      case "fal" => Ok(FalProvider)
      case _ => Err("Unknown provider: " + providerType.value)
    else if OpenAI.IsConfigured(env) then Ok(OpenAIProvider)
    else if Fal.IsConfigured(env) then Ok(FalProvider)
    else Ok(OpenAIProvider)
  }

  /** With the same override, the choice does not depend on which keys are set. */
  lemma OverrideIgnoresConfiguration(env: Env, other: Env)
    requires Js.Truthy(Read(env, OverrideVar))
    requires Read(env, OverrideVar) == Read(other, OverrideVar)
    ensures GetProvider(env) == GetProvider(other)
  {
  }

  /** An override of `runware` is rejected. */
  lemma RunwareOverrideRejected(env: Env)
    requires Read(env, OverrideVar) == Some("runware")
    ensures GetProvider(env) == Err("Unknown provider: runware")
  {
    assert "runware"[0] != "openai"[0] && "runware"[0] != "fal"[0];
    assert "Unknown provider: " + "runware" == "Unknown provider: runware";
  }

  /** Without an override, with no OpenAI key but Runware and Fal keys, the fallback picks Fal: Runware is never tried. */
  lemma FallbackSkipsRunware(env: Env)
    requires !Js.Truthy(Read(env, OverrideVar))
    requires !OpenAI.IsConfigured(env) && Runware.IsConfigured(env) && Fal.IsConfigured(env)
    ensures GetProvider(env) == Ok(FalProvider)
  {
  }

  /** Every provider's successful outcome holds at least one output, and every Fal output is a URL. */
  lemma OutcomeNonEmpty(p: Provider, env: Env, network: Network)
    requires p.Outcome(env, network).Ok?
    ensures p.Outcome(env, network).value != []
    ensures p == FalProvider ==> Js.Truthy(p.Outcome(env, network).value[0].url)
  {
  }
}
