/** The authentication settings (config/auth.go). */
module Auth {
  datatype AuthConfig = AuthConfig(
    developerToken: string,
    authenticationToken: string,
    customerID: string,
    customerAccountID: string)

  /** The arguments in order: developer token, authentication token,
      customer id, account id. */
  function NewAuthConfig(developerToken: string, authToken: string, customerID: string, accountID: string): (c: AuthConfig)
    ensures c.developerToken == developerToken
    ensures c.authenticationToken == authToken
    ensures c.customerID == customerID
    ensures c.customerAccountID == accountID
  {
    AuthConfig(developerToken, authToken, customerID, accountID)
  }

  /** `IsValid`: both tokens and the customer id are required. */
  function IsValid(c: AuthConfig): (ok: bool)
    ensures c.developerToken == "" ==> !ok
    ensures c.authenticationToken == "" ==> !ok
    ensures c.customerID == "" ==> !ok
  {
    if c.developerToken == "" || c.authenticationToken == "" then false
    else if c.customerID == "" then false
    else true
  }

  /** Valid exactly when the three required fields are set. */
  lemma ValidIff(c: AuthConfig)
    ensures IsValid(c) <==> c.developerToken != "" && c.authenticationToken != "" && c.customerID != ""
  {
  }

  /** The account id never affects validity. */
  lemma AccountIdIrrelevant(c: AuthConfig, accountID: string)
    ensures IsValid(c.(customerAccountID := accountID)) == IsValid(c)
  {
  }
}
