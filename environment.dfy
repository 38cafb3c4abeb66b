/** The environment settings (config/environment.go): endpoints, namespace
    constants, the API configuration and its defaults. */
module Environment {
  import opened Wrappers
  import opened Auth

  type Env = string

  const Production: Env := "production"
  const Sandbox: Env := "sandbox"

  const ProductionCampaignEndpoint :=
    "https://campaign.api.bingads.microsoft.com/Api/Advertiser/CampaignManagement/v13/CampaignManagementService.svc"
  const SandboxCampaignEndpoint :=
    "https://campaign.api.sandbox.bingads.microsoft.com/Api/Advertiser/CampaignManagement/v13/CampaignManagementService.svc"

  const XSINamespace := "http://www.w3.org/2001/XMLSchema-instance"
  const SOAPEnvelopeNamespace := "http://schemas.xmlsoap.org/soap/envelope/"
  const CampaignManagementNamespace := "https://bingads.microsoft.com/CampaignManagement/v13"

  /** Timeout is in seconds; MaxRetries is never read by the library. */
  datatype APIConfig = APIConfig(env: Env, timeout: int, maxRetries: int, debug: bool)

  function DefaultConfig(): (c: APIConfig)
    ensures c.env == Production && c.timeout == 30 && c.maxRetries == 3 && !c.debug
  {
    APIConfig(Production, 30, 3, false)
  }

  /** The sandbox endpoint for the sandbox environment, otherwise (for
      "production", "" or any other value) the production endpoint. */
  function GetCampaignEndpoint(c: APIConfig): (url: string)
    ensures url == SandboxCampaignEndpoint <==> c.env == Sandbox
    ensures url == ProductionCampaignEndpoint <==> c.env != Sandbox
  {
    if c.env == Sandbox then SandboxCampaignEndpoint else ProductionCampaignEndpoint
  }

  /** The whole configuration; Auth is a pointer that may be nil. */
  datatype Config = Config(auth: Option<AuthConfig>, api: APIConfig)

  /** `NewConfig`: a nil API configuration is replaced by the defaults. */
  function NewConfig(auth: Option<AuthConfig>, api: Option<APIConfig>): (c: Config)
    ensures c.auth == auth
    ensures api.Some? ==> c.api == api.value
    ensures api.None? ==> c.api == DefaultConfig()
  {
    Config(auth, if api.None? then DefaultConfig() else api.value)
  }

  /** Without an API configuration the client talks to production. */
  lemma DefaultsToProduction(auth: Option<AuthConfig>)
    ensures GetCampaignEndpoint(NewConfig(auth, None).api) == ProductionCampaignEndpoint
  {
  }
}
