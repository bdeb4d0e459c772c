/** The string constants of constants.py that the core uses. */
module Constants {

  // keys of the Cognito user/password authentication parameters
  const KeyUsername := "USERNAME"
  const KeyPassword := "PASSWORD"

  // authentication flow and identity-provider prefix of the login map
  const UserPasswordAuth := "USER_PASSWORD_AUTH"
  const CognitoProvider := "cognito-idp.us-west-2.amazonaws.com/"

  // the credential cache file and the four keys of the record it holds
  const CredentialsFile := "creds.json"
  const AccessKeyId := "AccessKeyId"
  const SecretKey := "SecretKey"
  const SessionToken := "SessionToken"
  const Expiration := "Expiration"

  // the one metric the agent publishes
  const MetricNameDiskUsage := "DiskUsage"
  const UnitPercent := "Percent"
}
