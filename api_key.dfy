/** Classification of a presented API key against the two configured
    secrets, TEST_API_KEY and PROD_API_KEY. */
module ApiKey {
  import opened Wrappers
  import opened Strings

  datatype ApiKeyType = Test | Prod | Invalid

  datatype ApiKeyValidation = ApiKeyValidation(kind: ApiKeyType, isValid: bool)

  /** The two secrets as read from the environment; either may be unset. */
  datatype Secrets = Secrets(testApiKey: Option<string>, prodApiKey: Option<string>)

  const UnauthorizedMessage: string := "Unauthorized: Invalid or missing API key"

  lemma UnauthorizedMessageSaysSo()
    ensures Contains(UnauthorizedMessage, "Unauthorized")
  {
    assert UnauthorizedMessage == "Unauthorized" + ": Invalid or missing API key";
  }

  /** The tier name a log entry records. */
  function TierName(kind: ApiKeyType): string
  {
    match kind
    case Test => "test"
    case Prod => "prod"
    case Invalid => "invalid"
  }

  /** `validateApiKey(apiKey)`. Exact string equality; the test secret is
      tried first, and an unset or empty secret matches nothing. */
  function ValidateApiKey(secrets: Secrets, apiKey: Option<string>): (v: ApiKeyValidation)
    ensures v.isValid <==> v.kind != Invalid
    ensures !Present(apiKey) ==> v.kind == Invalid
    ensures v.kind == Test <==> Present(apiKey) && Present(secrets.testApiKey) && apiKey == secrets.testApiKey
    ensures v.kind == Prod <==>
      Present(apiKey) && Present(secrets.prodApiKey) && apiKey == secrets.prodApiKey && apiKey != secrets.testApiKey
  {
    if !Present(apiKey) then ApiKeyValidation(Invalid, false)
    else if Present(secrets.testApiKey) && apiKey == secrets.testApiKey then ApiKeyValidation(Test, true)
    else if Present(secrets.prodApiKey) && apiKey == secrets.prodApiKey then ApiKeyValidation(Prod, true)
    else ApiKeyValidation(Invalid, false)
  }

  /** `requireApiKey(apiKey)`: the validation when it is valid, otherwise
      the unauthorized error. */
  function RequireApiKey(secrets: Secrets, apiKey: Option<string>): (r: Result<ApiKeyValidation, string>)
    ensures r.Ok? <==> ValidateApiKey(secrets, apiKey).isValid
    ensures r.Ok? ==> r.value == ValidateApiKey(secrets, apiKey) && r.value.kind in {Test, Prod}
    ensures r.Err? ==> r.error == UnauthorizedMessage && Contains(r.error, "Unauthorized")
  {
    var validation := ValidateApiKey(secrets, apiKey);
    UnauthorizedMessageSaysSo();
    if !validation.isValid then Err(UnauthorizedMessage) else Ok(validation)
  }
}
