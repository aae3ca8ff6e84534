/**
 * The map keys and marker strings of org.sunbird.common.models.util.JsonKey and
 * TelemetryEnvKey that the core uses. Only their distinctness matters to the proofs.
 */
module JsonKey {
  const Phone := "phone"
  const Email := "email"
  const Otp := "otp"
  const Password := "password"
  const Filters := "filters"
  const Response := "response"
  const Url := "url"
  const Declarations := "declarations"
  const UserId := "userId"
  const CallerId := "callerId"
  const ErrorMsg := "errorMsg"
  const Success := "SUCCESS"
  const Failed := "failed"
  const SelfDeclaredError := "SELF_DECLARED_ERROR"
  const Update := "Update"
  /** TelemetryEnvKey.USER */
  const UserEnv := "User"
}
